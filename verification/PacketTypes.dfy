/**
 Packet types as a union-find forest.

 A port's type may defer to another port's type. Ports are numbered; `SameAs(j)` is the
 pointer from one port to port `j`.
 */
module PacketTypes {
  import opened Timestamps
  import opened Packets

  datatype TypeSpec =
    | Uninitialized
    | Exact(id: nat)
    | OneOf(ids: seq<nat>)
    | AnyType
    | NoneType
    | SameAs(other: nat)

  /** A type that no longer defers to another port. */
  type ResolvedType = t: TypeSpec | !t.SameAs? witness AnyType

  type Store = seq<TypeSpec>

  // ---------------------------------------------------------------- forest

  /** `rank` strictly falls along every pointer, so no chain of pointers comes back. */
  ghost predicate IsRank(s: Store, rank: seq<nat>) {
    && |rank| == |s|
    && forall i :: 0 <= i < |s| && s[i].SameAs? ==> s[i].other < |s| && rank[s[i].other] < rank[i]
  }

  ghost predicate Forest(s: Store) {
    exists rank :: IsRank(s, rank)
  }

  ghost function RankOf(s: Store): (rank: seq<nat>)
    requires Forest(s)
    ensures IsRank(s, rank)
  {
    var rank :| IsRank(s, rank);
    rank
  }

  /** The representative of a port's type. */
  function GetSameAs(s: Store, i: nat): (r: nat)
    requires Forest(s) && i < |s|
    ensures r < |s| && !s[r].SameAs?
    ensures !s[i].SameAs? ==> r == i
    decreases RankOf(s)[i]
  {
    if s[i].SameAs? then GetSameAs(s, s[i].other) else i
  }

  function RootSpec(s: Store, i: nat): (spec: TypeSpec)
    requires Forest(s) && i < |s|
    ensures !spec.SameAs?
  {
    s[GetSameAs(s, i)]
  }

  // ---------------------------------------------------------------- updates

  lemma OverwriteKeepsForest(s: Store, i: nat, spec: TypeSpec)
    requires Forest(s) && i < |s| && !spec.SameAs?
    ensures Forest(s[i := spec])
  {
    assert IsRank(s[i := spec], RankOf(s));
  }

  lemma LinkKeepsForest(s: Store, i: nat, root: nat)
    requires Forest(s) && i < |s| && root < |s| && root != i && !s[root].SameAs?
    ensures Forest(s[i := SameAs(root)])
  {
    var rank := RankOf(s);
    var lifted: seq<nat> := seq(|s|, k requires 0 <= k < |s| => if k == root then 0 else rank[k] + 1);
    assert IsRank(s[i := SameAs(root)], lifted);
  }

  /** Replaces a port's type by one that is not a pointer (Set, SetAny, SetOneOf, SetNone). */
  function Overwrite(s: Store, i: nat, spec: TypeSpec): (r: Store)
    requires Forest(s) && i < |s| && !spec.SameAs?
    ensures Forest(r) && |r| == |s|
  {
    OverwriteKeepsForest(s, i, spec);
    s[i := spec]
  }

  /** Points port `i` at the representative of port `j`; a would-be cycle becomes Any. */
  function SetSameAs(s: Store, i: nat, j: nat): (r: Store)
    requires Forest(s) && i < |s| && j < |s|
    ensures Forest(r) && |r| == |s|
  {
    var root := GetSameAs(s, j);
    if root == i then Overwrite(s, i, AnyType)
    else
      LinkKeepsForest(s, i, root);
      s[i := SameAs(root)]
  }

  datatype TypeCall =
    | SetTo(port: nat, spec: ResolvedType)
    | SetSame(port: nat, other: nat)

  function AfterCalls(s: Store, calls: seq<TypeCall>): (r: Store)
    requires Forest(s)
    ensures Forest(r) && |r| == |s|
    decreases |calls|
  {
    if calls == [] then s
    else
      var t := AfterCalls(s, calls[..|calls| - 1]);
      match calls[|calls| - 1]
      case SetTo(i, spec) => if i < |t| then Overwrite(t, i, spec) else t
      case SetSame(i, j) => if i < |t| && j < |t| then SetSameAs(t, i, j) else t
  }

  /** Whatever calls were made on fresh ports, in whatever order, following pointers ends at a representative. */
  lemma EveryChainEnds(ports: nat, calls: seq<TypeCall>, i: nat)
    requires i < ports
    ensures var blank: Store := seq(ports, _ => Uninitialized);
            && Forest(blank) && |AfterCalls(blank, calls)| == ports
            && !AfterCalls(blank, calls)[GetSameAs(AfterCalls(blank, calls), i)].SameAs?
  {
    var blank: Store := seq(ports, _ => Uninitialized);
    assert IsRank(blank, seq(ports, _ => 0));
  }

  /** Linking one representative under another moves exactly its own class. */
  lemma {:induction false} RootsAfterLink(s: Store, i: nat, root: nat, k: nat)
    requires Forest(s) && i < |s| && root < |s| && k < |s|
    requires root != i && !s[i].SameAs? && !s[root].SameAs?
    ensures Forest(s[i := SameAs(root)])
    ensures GetSameAs(s[i := SameAs(root)], k) == if GetSameAs(s, k) == i then root else GetSameAs(s, k)
    decreases RankOf(s)[k]
  {
    LinkKeepsForest(s, i, root);
    var t := s[i := SameAs(root)];
    if k == i {
      assert t[root] == s[root];
      assert GetSameAs(t, i) == GetSameAs(t, root) == root;
    } else if s[k].SameAs? {
      assert t[k] == s[k];
      RootsAfterLink(s, i, root, s[k].other);
    }
  }

  // ---------------------------------------------------------------- validation

  /** Whether a type that is not a pointer accepts a packet. */
  predicate AcceptsPacket(spec: TypeSpec, p: Packet)
    requires !spec.SameAs?
  {
    match spec
    case Uninitialized => false
    case Exact(id) => p.Data? && p.typeId == id
    case OneOf(ids) => p.Data? && p.typeId in ids
    case AnyType => p.Data?
    case NoneType => false
  }

  predicate Validate(s: Store, i: nat, p: Packet)
    requires Forest(s) && i < |s|
  {
    AcceptsPacket(RootSpec(s, i), p)
  }

  function TypeSpan(spec: TypeSpec): seq<nat> {
    match spec
    case Exact(id) => [id]
    case OneOf(ids) => ids
    case _ => []
  }

  predicate HaveCommonType(a: seq<nat>, b: seq<nat>) {
    exists t :: t in a && t in b
  }

  /** What an Any or None type says of another type. */
  predicate SpecialAccepts(special: TypeSpec, other: TypeSpec)
    requires special.AnyType? || special.NoneType?
  {
    special.AnyType? || other.AnyType? || other.NoneType?
  }

  predicate SpecsConsistent(a: TypeSpec, b: TypeSpec) {
    if TypeSpan(a) != [] && TypeSpan(b) != [] then HaveCommonType(TypeSpan(a), TypeSpan(b))
    else if a.AnyType? || a.NoneType? then SpecialAccepts(a, b)
    else if b.AnyType? || b.NoneType? then SpecialAccepts(b, a)
    else false
  }

  predicate IsConsistentWith(s: Store, i: nat, j: nat)
    requires Forest(s) && i < |s| && j < |s|
  {
    SpecsConsistent(RootSpec(s, i), RootSpec(s, j))
  }

  lemma ConsistencyIsSymmetric(a: TypeSpec, b: TypeSpec)
    ensures SpecsConsistent(a, b) == SpecsConsistent(b, a)
  {
    assert HaveCommonType(TypeSpan(a), TypeSpan(b)) == HaveCommonType(TypeSpan(b), TypeSpan(a));
  }

  predicate AcceptedByBoth(a: TypeSpec, b: TypeSpec, p: Packet)
    requires !a.SameAs? && !b.SameAs?
  {
    AcceptsPacket(a, p) && AcceptsPacket(b, p)
  }

  /**
   Two types are consistent exactly if some packet suits both. The exceptions are types that no
   packet suits: Any goes with all of them, and None with None.
   */
  lemma ConsistentMeansCommonPacket(a: ResolvedType, b: ResolvedType)
    ensures SpecsConsistent(a, b) <==>
              || (exists p :: AcceptedByBoth(a, b, p))
              || a.AnyType? || b.AnyType?
              || (a.NoneType? && b.NoneType?)
  {
    if TypeSpan(a) != [] && TypeSpan(b) != [] && HaveCommonType(TypeSpan(a), TypeSpan(b)) {
      var id :| id in TypeSpan(a) && id in TypeSpan(b);
      assert AcceptedByBoth(a, b, Data(0, id, 0));
    }
    if p :| AcceptedByBoth(a, b, p) && !a.AnyType? && !b.AnyType? {
      assert p.typeId in TypeSpan(a) && p.typeId in TypeSpan(b);
    }
  }

  /** A type that some packet suits. */
  predicate Usable(spec: TypeSpec) {
    spec.Exact? || spec.AnyType? || (spec.OneOf? && spec.ids != [])
  }

  /** Without the exceptions it is an equivalence. */
  lemma UsableTypesAgree(a: ResolvedType, b: ResolvedType)
    requires Usable(a) && Usable(b)
    ensures SpecsConsistent(a, b) <==> exists p :: AcceptedByBoth(a, b, p)
  {
    ConsistentMeansCommonPacket(a, b);
    if a.AnyType? || b.AnyType? {
      var other := if a.AnyType? then b else a;
      var id := if other.AnyType? then 0 else TypeSpan(other)[0];
      assert AcceptedByBoth(a, b, Data(0, id, 0));
    }
  }

  // ---------------------------------------------------------------- edges

  /** An input port and the output port feeding it, if any. */
  datatype Edge = Edge(input: nat, output: nat) | Unconnected(input: nat)

  predicate EdgesInStore(s: Store, edges: seq<Edge>) {
    forall e :: e in edges ==> e.input < |s| && (e.Edge? ==> e.output < |s|)
  }

  function ResolveAnyEdge(s: Store, e: Edge): (r: Store)
    requires Forest(s) && e.input < |s| && (e.Edge? ==> e.output < |s|)
    ensures Forest(r) && |r| == |s|
  {
    if e.Unconnected? then s
    else if RootSpec(s, e.input).AnyType? then SetSameAs(s, GetSameAs(s, e.input), e.output)
    else if RootSpec(s, e.output).AnyType? then SetSameAs(s, GetSameAs(s, e.output), e.input)
    else s
  }

  function ResolveOneOfEdge(s: Store, e: Edge): (r: Store)
    requires Forest(s) && e.input < |s| && (e.Edge? ==> e.output < |s|)
    ensures Forest(r) && |r| == |s|
  {
    if e.Unconnected? || !IsConsistentWith(s, e.input, e.output) then s
    else if RootSpec(s, e.input).OneOf? && RootSpec(s, e.output).Exact? then
      SetSameAs(s, GetSameAs(s, e.input), e.output)
    else if RootSpec(s, e.output).OneOf? && RootSpec(s, e.input).Exact? then
      SetSameAs(s, GetSameAs(s, e.output), e.input)
    else s
  }

  function ResolveAnyTypes(s: Store, edges: seq<Edge>): (r: Store)
    requires Forest(s) && EdgesInStore(s, edges)
    ensures Forest(r) && |r| == |s|
    decreases |edges|
  {
    if edges == [] then s
    else ResolveAnyEdge(ResolveAnyTypes(s, edges[..|edges| - 1]), edges[|edges| - 1])
  }

  function ResolveOneOfTypes(s: Store, edges: seq<Edge>): (r: Store)
    requires Forest(s) && EdgesInStore(s, edges)
    ensures Forest(r) && |r| == |s|
    decreases |edges|
  {
    if edges == [] then s
    else ResolveOneOfEdge(ResolveOneOfTypes(s, edges[..|edges| - 1]), edges[|edges| - 1])
  }

  predicate TypesValidated(s: Store, edges: seq<Edge>)
    requires Forest(s) && EdgesInStore(s, edges)
  {
    forall e :: e in edges && e.Edge? ==> IsConsistentWith(s, e.input, e.output)
  }

  /** The two ends have become one type, or neither still needs to be inferred. */
  predicate Resolved(s: Store, e: Edge)
    requires Forest(s) && e.input < |s| && (e.Edge? ==> e.output < |s|)
  {
    e.Edge? ==>
      || GetSameAs(s, e.input) == GetSameAs(s, e.output)
      || (!RootSpec(s, e.input).AnyType? && !RootSpec(s, e.output).AnyType?)
  }

  /**
   One class was merged into another one: `from` is a representative whose ports now follow
   `to`, and nothing else moved.
   */
  ghost predicate Merged(s: Store, t: Store, from: nat, to: nat) {
    && Forest(s) && Forest(t) && |s| == |t| && from < |s| && to < |s| && from != to
    && !s[from].SameAs? && !s[to].SameAs? && t == s[from := SameAs(to)]
    && forall k :: 0 <= k < |s| ==> GetSameAs(t, k) == if GetSameAs(s, k) == from then to else GetSameAs(s, k)
  }

  lemma MergeOfRoots(s: Store, from: nat, j: nat)
    requires Forest(s) && from < |s| && j < |s| && !s[from].SameAs? && GetSameAs(s, j) != from
    ensures Merged(s, SetSameAs(s, from, j), from, GetSameAs(s, j))
  {
    forall k | 0 <= k < |s| {
      RootsAfterLink(s, from, GetSameAs(s, j), k);
    }
  }

  /** Merging a class away keeps every resolved edge resolved. */
  lemma MergeKeepsResolved(s: Store, t: Store, from: nat, to: nat, e: Edge)
    requires Merged(s, t, from, to)
    requires e.input < |s| && (e.Edge? ==> e.output < |s|) && Resolved(s, e)
    requires s[from].AnyType? || !s[to].AnyType?
    ensures Resolved(t, e)
  {
    if e.Edge? {
      assert t[GetSameAs(s, e.input)] == s[GetSameAs(s, e.input)] || GetSameAs(s, e.input) == from;
      assert t[GetSameAs(s, e.output)] == s[GetSameAs(s, e.output)] || GetSameAs(s, e.output) == from;
      assert t[to] == s[to];
    }
  }

  lemma AnyStepResolves(s: Store, e: Edge, f: Edge)
    requires Forest(s) && e.input < |s| && (e.Edge? ==> e.output < |s|)
    requires f.input < |s| && (f.Edge? ==> f.output < |s|)
    ensures Resolved(ResolveAnyEdge(s, e), e)
    ensures Resolved(s, f) ==> Resolved(ResolveAnyEdge(s, e), f)
  {
    if e.Edge? {
      var i, o := GetSameAs(s, e.input), GetSameAs(s, e.output);
      if s[i].AnyType? {
        if i == o {
          assert SetSameAs(s, i, e.output) == s;
        } else {
          MergeOfRoots(s, i, e.output);
          if Resolved(s, f) { MergeKeepsResolved(s, SetSameAs(s, i, e.output), i, o, f); }
        }
      } else if s[o].AnyType? {
        MergeOfRoots(s, o, e.input);
        if Resolved(s, f) { MergeKeepsResolved(s, SetSameAs(s, o, e.input), o, i, f); }
      }
    }
  }

  lemma OneOfStepKeepsResolved(s: Store, e: Edge, f: Edge)
    requires Forest(s) && e.input < |s| && (e.Edge? ==> e.output < |s|)
    requires f.input < |s| && (f.Edge? ==> f.output < |s|) && Resolved(s, f)
    ensures Resolved(ResolveOneOfEdge(s, e), f)
  {
    if e.Edge? && ResolveOneOfEdge(s, e) != s {
      var i, o := GetSameAs(s, e.input), GetSameAs(s, e.output);
      if s[i].OneOf? {
        MergeOfRoots(s, i, e.output);
        MergeKeepsResolved(s, SetSameAs(s, i, e.output), i, o, f);
      } else {
        MergeOfRoots(s, o, e.input);
        MergeKeepsResolved(s, SetSameAs(s, o, e.input), o, i, f);
      }
    }
  }

  /** After ResolveAnyTypes, every connected edge is resolved. */
  lemma {:induction false} AnyTypesAreResolved(s: Store, edges: seq<Edge>, e: Edge)
    requires Forest(s) && EdgesInStore(s, edges) && e in edges
    ensures Resolved(ResolveAnyTypes(s, edges), e)
    decreases |edges|
  {
    var init, last := edges[..|edges| - 1], edges[|edges| - 1];
    if e in init {
      AnyTypesAreResolved(s, init, e);
    }
    AnyStepResolves(ResolveAnyTypes(s, init), last, e);
  }

  lemma {:induction false} OneOfTypesStayResolved(s: Store, edges: seq<Edge>, e: Edge)
    requires Forest(s) && EdgesInStore(s, edges)
    requires e.input < |s| && (e.Edge? ==> e.output < |s|) && Resolved(s, e)
    ensures Resolved(ResolveOneOfTypes(s, edges), e)
    decreases |edges|
  {
    if edges != [] {
      var init, last := edges[..|edges| - 1], edges[|edges| - 1];
      OneOfTypesStayResolved(s, init, e);
      OneOfStepKeepsResolved(ResolveOneOfTypes(s, init), last, e);
    }
  }

  /** The passes of graph validation, in order. */
  function ResolveAll(s: Store, edges: seq<Edge>): (r: Store)
    requires Forest(s) && EdgesInStore(s, edges)
    ensures Forest(r) && |r| == |s|
  {
    ResolveOneOfTypes(ResolveAnyTypes(s, edges), edges)
  }

  /** Every packet the output port lets out is let in by the input port. */
  ghost predicate EdgeIsSound(s: Store, e: Edge)
    requires Forest(s) && e.Edge? && e.input < |s| && e.output < |s|
  {
    forall p :: Validate(s, e.output, p) ==> Validate(s, e.input, p)
  }

  /**
   A validated edge never rejects downstream what was accepted upstream, exactly when the
   output is not a OneOf type that offers more than the input takes.
   */
  lemma ValidatedEdgesAreSound(s: Store, edges: seq<Edge>, e: Edge)
    requires Forest(s) && EdgesInStore(s, edges) && e in edges && e.Edge?
    requires TypesValidated(ResolveAll(s, edges), edges)
    ensures var t := ResolveAll(s, edges);
            var o, i := RootSpec(t, e.output), RootSpec(t, e.input);
            EdgeIsSound(t, e) <==>
              (o.OneOf? ==> GetSameAs(t, e.input) == GetSameAs(t, e.output) || forall id :: id in o.ids ==> id in TypeSpan(i))
  {
    var a := ResolveAnyTypes(s, edges);
    AnyTypesAreResolved(s, edges, e);
    OneOfTypesStayResolved(a, edges, e);
    ResolvedEdgeSoundness(ResolveAll(s, edges), e);
  }

  lemma ResolvedEdgeSoundness(t: Store, e: Edge)
    requires Forest(t) && e.Edge? && e.input < |t| && e.output < |t|
    requires Resolved(t, e) && IsConsistentWith(t, e.input, e.output)
    ensures var o, i := RootSpec(t, e.output), RootSpec(t, e.input);
            EdgeIsSound(t, e) <==>
              (o.OneOf? ==> GetSameAs(t, e.input) == GetSameAs(t, e.output) || forall id :: id in o.ids ==> id in TypeSpan(i))
  {
    var o, i := RootSpec(t, e.output), RootSpec(t, e.input);
    if EdgeIsSound(t, e) && o.OneOf? && GetSameAs(t, e.input) != GetSameAs(t, e.output) {
      forall id | id in o.ids ensures id in TypeSpan(i) {
        assert Validate(t, e.output, Data(0, id, 0));
        assert Validate(t, e.input, Data(0, id, 0));
      }
    }
  }

  /** In particular nothing leaves an exactly typed, Any or None output that its input refuses. */
  lemma ExactOutputsAreSound(s: Store, edges: seq<Edge>, e: Edge)
    requires Forest(s) && EdgesInStore(s, edges) && e in edges && e.Edge?
    requires TypesValidated(ResolveAll(s, edges), edges)
    requires !RootSpec(ResolveAll(s, edges), e.output).OneOf?
    ensures EdgeIsSound(ResolveAll(s, edges), e)
  {
    ValidatedEdgesAreSound(s, edges, e);
  }

  /** Two overlapping OneOf types pass validation although a packet may be refused. */
  lemma OverlappingOneOfIsUnsound()
    ensures var s: Store := [OneOf([1, 2]), OneOf([2, 3])];
            var edges := [Edge(1, 0)];
            && Forest(s) && EdgesInStore(s, edges)
            && ResolveAll(s, edges) == s && TypesValidated(s, edges) && !EdgeIsSound(s, edges[0])
  {
    var s: Store := [OneOf([1, 2]), OneOf([2, 3])];
    var edges := [Edge(1, 0)];
    assert IsRank(s, [0, 0]);
    assert edges[..0] == [];
    assert ResolveAnyTypes(s, edges[..0]) == s;
    assert ResolveOneOfTypes(s, edges[..0]) == s;
    assert 2 in TypeSpan(s[1]) && 2 in TypeSpan(s[0]);
    assert Validate(s, 0, Data(0, 1, 0)) && !Validate(s, 1, Data(0, 1, 0));
  }

  // ---------------------------------------------------------------- typable graphs are validated

  /** Port `k` may carry packets of type `types[k]`. */
  predicate Allows(s: Store, k: nat, id: nat)
    requires Forest(s) && k < |s|
  {
    AcceptsPacket(RootSpec(s, k), Data(0, id, 0))
  }

  predicate EndTyped(s: Store, types: seq<nat>, k: nat)
    requires Forest(s) && |types| == |s| && k < |s|
  {
    Allows(s, k, types[GetSameAs(s, k)])
  }

  /** One type for every class of ports, allowed at both ends of every edge and equal there. */
  predicate Typing(s: Store, edges: seq<Edge>, types: seq<nat>)
    requires Forest(s) && EdgesInStore(s, edges) && |types| == |s|
  {
    forall e :: e in edges && e.Edge? ==>
      && types[GetSameAs(s, e.input)] == types[GetSameAs(s, e.output)]
      && EndTyped(s, types, e.input) && EndTyped(s, types, e.output)
  }

  /** Merging the two ends of a typed edge keeps the typing. */
  lemma MergeKeepsTyping(s: Store, t: Store, from: nat, to: nat, edges: seq<Edge>, types: seq<nat>)
    requires Merged(s, t, from, to) && EdgesInStore(s, edges) && |types| == |s| && Typing(s, edges, types)
    requires types[from] == types[to] && AcceptsPacket(s[to], Data(0, types[to], 0))
    ensures Typing(t, edges, types)
  {
    forall e | e in edges && e.Edge?
      ensures types[GetSameAs(t, e.input)] == types[GetSameAs(t, e.output)]
      ensures EndTyped(t, types, e.input) && EndTyped(t, types, e.output)
    {
      EndStaysTyped(s, t, from, to, types, e.input);
      EndStaysTyped(s, t, from, to, types, e.output);
    }
  }

  lemma EndStaysTyped(s: Store, t: Store, from: nat, to: nat, types: seq<nat>, k: nat)
    requires Merged(s, t, from, to) && |types| == |s| && k < |s| && EndTyped(s, types, k)
    requires types[from] == types[to] && AcceptsPacket(s[to], Data(0, types[to], 0))
    ensures EndTyped(t, types, k) && types[GetSameAs(t, k)] == types[GetSameAs(s, k)]
  {
    assert t[to] == s[to];
    assert GetSameAs(s, k) != from ==> t[GetSameAs(s, k)] == s[GetSameAs(s, k)];
  }

  lemma StepKeepsTyping(s: Store, e: Edge, edges: seq<Edge>, types: seq<nat>)
    requires Forest(s) && EdgesInStore(s, edges) && e in edges && |types| == |s| && Typing(s, edges, types)
    ensures Typing(ResolveAnyEdge(s, e), edges, types)
    ensures Typing(ResolveOneOfEdge(s, e), edges, types)
  {
    if e.Edge? {
      var i, o := GetSameAs(s, e.input), GetSameAs(s, e.output);
      assert EndTyped(s, types, e.input) && EndTyped(s, types, e.output);
      if i == o {
        assert s[i].AnyType? ==> SetSameAs(s, i, e.output) == s;
      } else {
        MergeOfRoots(s, i, e.output);
        MergeOfRoots(s, o, e.input);
        MergeKeepsTyping(s, SetSameAs(s, i, e.output), i, o, edges, types);
        MergeKeepsTyping(s, SetSameAs(s, o, e.input), o, i, edges, types);
      }
    }
  }

  lemma {:induction false} PassesKeepTyping(s: Store, done: seq<Edge>, edges: seq<Edge>, types: seq<nat>)
    requires Forest(s) && EdgesInStore(s, edges) && |types| == |s| && Typing(s, edges, types)
    requires forall e :: e in done ==> e in edges
    ensures Typing(ResolveAnyTypes(s, done), edges, types)
    ensures Typing(ResolveOneOfTypes(s, done), edges, types)
    decreases |done|
  {
    if done != [] {
      var init, last := done[..|done| - 1], done[|done| - 1];
      PassesKeepTyping(s, init, edges, types);
      assert last in done;
      StepKeepsTyping(ResolveAnyTypes(s, init), last, edges, types);
      StepKeepsTyping(ResolveOneOfTypes(s, init), last, edges, types);
    }
  }

  /** Whenever types can be given to the ports so that every edge joins equal ones, validation finds no fault. */
  lemma TypableGraphsAreValidated(s: Store, edges: seq<Edge>, types: seq<nat>)
    requires Forest(s) && EdgesInStore(s, edges) && |types| == |s| && Typing(s, edges, types)
    ensures TypesValidated(ResolveAll(s, edges), edges)
    ensures Typing(ResolveAll(s, edges), edges, types)
  {
    PassesKeepTyping(s, edges, edges, types);
    var a := ResolveAnyTypes(s, edges);
    PassesKeepTyping(a, edges, edges, types);
    var t := ResolveAll(s, edges);
    forall e | e in edges && e.Edge?
      ensures IsConsistentWith(t, e.input, e.output)
    {
      assert EndTyped(t, types, e.input) && EndTyped(t, types, e.output);
      assert AcceptedByBoth(RootSpec(t, e.input), RootSpec(t, e.output), Data(0, types[GetSameAs(t, e.input)], 0));
      ConsistentMeansCommonPacket(RootSpec(t, e.input), RootSpec(t, e.output));
    }
  }

  /** In particular if every edge joins two exact types that are equal. */
  lemma ExactGraphsAreValidated(s: Store, edges: seq<Edge>)
    requires Forest(s) && EdgesInStore(s, edges)
    requires forall e :: e in edges && e.Edge? ==> RootSpec(s, e.input).Exact? && RootSpec(s, e.output) == RootSpec(s, e.input)
    ensures TypesValidated(ResolveAll(s, edges), edges)
  {
    var types: seq<nat> := seq(|s|, k requires 0 <= k < |s| => if s[k].Exact? then s[k].id else 0);
    forall e | e in edges && e.Edge?
      ensures types[GetSameAs(s, e.input)] == types[GetSameAs(s, e.output)]
      ensures EndTyped(s, types, e.input) && EndTyped(s, types, e.output)
    {
      assert RootSpec(s, e.input) == RootSpec(s, e.output);
    }
    TypableGraphsAreValidated(s, edges, types);
  }

  /** The first pass changes nothing where no end is Any. */
  lemma {:induction false} AnyPassIdles(s: Store, edges: seq<Edge>)
    requires Forest(s) && EdgesInStore(s, edges)
    requires forall e :: e in edges && e.Edge? ==> !RootSpec(s, e.input).AnyType? && !RootSpec(s, e.output).AnyType?
    ensures ResolveAnyTypes(s, edges) == s
    decreases |edges|
  {
    if edges != [] {
      AnyPassIdles(s, edges[..|edges| - 1]);
      assert edges[|edges| - 1] in edges;
    }
  }

  lemma TwoEdgesNarrowed(s: Store, e: Edge, f: Edge)
    requires Forest(s) && e.input < |s| && (e.Edge? ==> e.output < |s|) && f.input < |s| && (f.Edge? ==> f.output < |s|)
    ensures ResolveOneOfTypes(s, [e, f]) == ResolveOneOfEdge(ResolveOneOfEdge(s, e), f)
  {
    var edges := [e, f];
    assert edges[..1] == [e] && [e][..0] == [];
    assert ResolveOneOfTypes(s, []) == s;
    assert ResolveOneOfTypes(s, [e]) == ResolveOneOfEdge(s, e);
  }

  /** Edge by edge is not enough: a OneOf port that feeds two different exact types is refused. */
  lemma OneOfCannotServeTwo()
    ensures var s: Store := [OneOf([1, 2]), Exact(1), Exact(2)];
            var edges := [Edge(1, 0), Edge(2, 0)];
            && Forest(s) && EdgesInStore(s, edges)
            && IsConsistentWith(s, 1, 0) && IsConsistentWith(s, 2, 0)
            && !TypesValidated(ResolveAll(s, edges), edges)
  {
    var s: Store := [OneOf([1, 2]), Exact(1), Exact(2)];
    var e, f := Edge(1, 0), Edge(2, 0);
    assert IsRank(s, [0, 0, 0]);
    AnyPassIdles(s, [e, f]);
    TwoEdgesNarrowed(s, e, f);
    SharedOneOf(s);
    assert f in [e, f];
  }

  lemma SharedOneOf(s: Store)
    requires s == [OneOf([1, 2]), Exact(1), Exact(2)] && Forest(s)
    ensures IsConsistentWith(s, 1, 0) && IsConsistentWith(s, 2, 0)
    ensures var t := ResolveOneOfEdge(s, Edge(1, 0));
            |t| == 3 && Forest(t) && ResolveOneOfEdge(t, Edge(2, 0)) == t && !IsConsistentWith(t, 2, 0)
  {
    assert 1 in TypeSpan(s[0]) && 1 in TypeSpan(s[1]) && 2 in TypeSpan(s[0]) && 2 in TypeSpan(s[2]);
    var t := SetSameAs(s, 0, 1);
    assert ResolveOneOfEdge(s, Edge(1, 0)) == t;
    assert t == [SameAs(1), Exact(1), Exact(2)];
    assert GetSameAs(t, 0) == GetSameAs(t, 1) == 1;
  }

  // ---------------------------------------------------------------- narrowing

  /** Exact representatives are never merged away. */
  lemma {:induction false} ExactStays(s: Store, edges: seq<Edge>, k: nat)
    requires Forest(s) && EdgesInStore(s, edges) && k < |s| && RootSpec(s, k).Exact?
    ensures var r := ResolveOneOfTypes(s, edges); GetSameAs(r, k) == GetSameAs(s, k) && RootSpec(r, k) == RootSpec(s, k)
    decreases |edges|
  {
    if edges != [] {
      var init, e := edges[..|edges| - 1], edges[|edges| - 1];
      ExactStays(s, init, k);
      NarrowingMovesOneOf(ResolveOneOfTypes(s, init), e, k);
    }
  }

  lemma NarrowingMovesOneOf(t: Store, e: Edge, k: nat)
    requires Forest(t) && e.input < |t| && (e.Edge? ==> e.output < |t|) && k < |t| && RootSpec(t, k).Exact?
    ensures var r := ResolveOneOfEdge(t, e); GetSameAs(r, k) == GetSameAs(t, k) && RootSpec(r, k) == RootSpec(t, k)
  {
    if ResolveOneOfEdge(t, e) != t {
      var i, o := GetSameAs(t, e.input), GetSameAs(t, e.output);
      if t[i].OneOf? {
        MergeOfRoots(t, i, e.output);
      } else {
        MergeOfRoots(t, o, e.input);
      }
    }
  }

  /** A OneOf end that meets an exact one it lists. */
  predicate Narrows(t: Store, k: nat, exact: nat)
    requires Forest(t) && k < |t| && exact < |t|
  {
    RootSpec(t, k).OneOf? && RootSpec(t, exact).Exact? && RootSpec(t, exact).id in RootSpec(t, k).ids
  }

  /** If an edge joins such ends when its turn comes, then both have that exact type ever after. */
  lemma OneOfEndsAreNarrowed(s: Store, edges: seq<Edge>, n: nat, k: nat, exact: nat)
    requires Forest(s) && EdgesInStore(s, edges) && n < |edges| && k < |s| && exact < |s|
    requires edges[n] == Edge(k, exact) || edges[n] == Edge(exact, k)
    requires Narrows(ResolveOneOfTypes(s, edges[..n]), k, exact)
    ensures var r := ResolveOneOfTypes(s, edges);
            && GetSameAs(r, k) == GetSameAs(r, exact)
            && RootSpec(r, k) == RootSpec(ResolveOneOfTypes(s, edges[..n]), exact)
  {
    var t, e := ResolveOneOfTypes(s, edges[..n]), edges[n];
    assert e in edges;
    var i, o := GetSameAs(t, k), GetSameAs(t, exact);
    assert t[o].id in TypeSpan(t[i]) && t[o].id in TypeSpan(t[o]);
    ConsistencyIsSymmetric(t[i], t[o]);
    MergeOfRoots(t, i, exact);
    var u := ResolveOneOfEdge(t, e);
    assert u == SetSameAs(t, i, exact);
    NarrowingInParts(s, edges, n);
    ExactStays(u, edges[n + 1..], k);
    ExactStays(u, edges[n + 1..], exact);
  }

  lemma {:induction false} PassInParts(s: Store, a: seq<Edge>, b: seq<Edge>)
    requires Forest(s) && EdgesInStore(s, a) && EdgesInStore(s, b)
    ensures EdgesInStore(s, a + b) && ResolveOneOfTypes(s, a + b) == ResolveOneOfTypes(ResolveOneOfTypes(s, a), b)
    decreases |b|
  {
    if b == [] {
      assert a + b == a;
    } else {
      var init := b[..|b| - 1];
      PassInParts(s, a, init);
      assert (a + b)[..|a + b| - 1] == a + init;
    }
  }

  lemma CutAndJoined(edges: seq<Edge>, n: nat)
    requires n <= |edges|
    ensures edges[..n] + edges[n..] == edges
  {
  }

  /** The store after the first `n` edges and the one that follows them. */
  function NarrowedTo(s: Store, edges: seq<Edge>, n: nat): (r: Store)
    requires Forest(s) && EdgesInStore(s, edges) && n < |edges|
    ensures Forest(r) && |r| == |s|
  {
    ResolveOneOfEdge(ResolveOneOfTypes(s, edges[..n]), edges[n])
  }

  lemma {:induction false} OneMoreNarrowed(s: Store, edges: seq<Edge>, n: nat)
    requires Forest(s) && EdgesInStore(s, edges) && n < |edges|
    ensures ResolveOneOfTypes(s, edges[..n + 1]) == NarrowedTo(s, edges, n)
  {
    assert edges[..n + 1][..n] == edges[..n];
  }

  lemma {:induction false} NarrowingInParts(s: Store, edges: seq<Edge>, n: nat)
    requires Forest(s) && EdgesInStore(s, edges) && n < |edges|
    ensures ResolveOneOfTypes(s, edges) == ResolveOneOfTypes(NarrowedTo(s, edges, n), edges[n + 1..])
  {
    OneMoreNarrowed(s, edges, n);
    CutAndJoined(edges, n + 1);
    PassInParts(s, edges[..n + 1], edges[n + 1..]);
  }

  // ---------------------------------------------------------------- the ports themselves

  /** The port types of a graph, updated in place. */
  class PacketTypeTable {
    var specs: Store

    constructor (size: nat)
      ensures |specs| == size && Forest(specs)
    {
      var unset: Store := seq(size, _ => Uninitialized);
      assert IsRank(unset, seq(size, _ => 0));
      specs := unset;
    }

    constructor Of(types: Store)
      requires Forest(types)
      ensures specs == types
    {
      specs := types;
    }

    method SetSpec(i: nat, spec: TypeSpec)
      requires Forest(specs) && i < |specs| && !spec.SameAs?
      modifies this
      ensures Forest(specs) && specs == old(Overwrite(specs, i, spec))
    {
      OverwriteKeepsForest(specs, i, spec);
      specs := specs[i := spec];
    }

    method SetSame(i: nat, j: nat)
      requires Forest(specs) && i < |specs| && j < |specs|
      modifies this
      ensures Forest(specs) && specs == old(SetSameAs(specs, i, j))
    {
      var root := GetSameAs(specs, j);
      if root == i {
        SetSpec(i, AnyType);
      } else {
        LinkKeepsForest(specs, i, root);
        specs := specs[i := SameAs(root)];
      }
    }

    method ResolveAny(edges: seq<Edge>)
      requires Forest(specs) && EdgesInStore(specs, edges)
      modifies this
      ensures Forest(specs) && specs == ResolveAnyTypes(old(specs), edges)
    {
      ghost var before := specs;
      for n := 0 to |edges|
        invariant Forest(specs) && |specs| == |before|
        invariant specs == ResolveAnyTypes(before, edges[..n])
      {
        var e := edges[n];
        assert e in edges;
        assert edges[..n + 1][..n] == edges[..n];
        if e.Edge? {
          var inputRoot, outputRoot := GetSameAs(specs, e.input), GetSameAs(specs, e.output);
          if specs[inputRoot].AnyType? {
            SetSame(inputRoot, e.output);
          } else if specs[outputRoot].AnyType? {
            SetSame(outputRoot, e.input);
          }
        }
      }
      assert edges[..|edges|] == edges;
    }

    method ResolveOneOf(edges: seq<Edge>)
      requires Forest(specs) && EdgesInStore(specs, edges)
      modifies this
      ensures Forest(specs) && specs == ResolveOneOfTypes(old(specs), edges)
    {
      ghost var before := specs;
      for n := 0 to |edges|
        invariant Forest(specs) && |specs| == |before|
        invariant specs == ResolveOneOfTypes(before, edges[..n])
      {
        var e := edges[n];
        assert e in edges;
        assert edges[..n + 1][..n] == edges[..n];
        if e.Edge? {
          var inputRoot, outputRoot := GetSameAs(specs, e.input), GetSameAs(specs, e.output);
          if SpecsConsistent(specs[inputRoot], specs[outputRoot]) {
            if specs[inputRoot].OneOf? && specs[outputRoot].Exact? {
              SetSame(inputRoot, e.output);
            } else if specs[outputRoot].OneOf? && specs[inputRoot].Exact? {
              SetSame(outputRoot, e.input);
            }
          }
        }
      }
      assert edges[..|edges|] == edges;
    }

    /** Streams must be connected; side packets may be provided later. */
    method ValidateTypes(edges: seq<Edge>, mustBeConnected: bool) returns (ok: bool)
      requires Forest(specs) && EdgesInStore(specs, edges)
      ensures ok <==> TypesValidated(specs, edges) && (mustBeConnected ==> forall e :: e in edges ==> e.Edge?)
    {
      for n := 0 to |edges|
        invariant forall e :: e in edges[..n] && e.Edge? ==> IsConsistentWith(specs, e.input, e.output)
        invariant mustBeConnected ==> forall e :: e in edges[..n] ==> e.Edge?
      {
        var e := edges[n];
        assert e in edges;
        if e.Unconnected? {
          if mustBeConnected { return false; }
        } else if !SpecsConsistent(specs[GetSameAs(specs, e.input)], specs[GetSameAs(specs, e.output)]) {
          return false;
        }
      }
      assert edges[..|edges|] == edges;
      return true;
    }
  }
}
