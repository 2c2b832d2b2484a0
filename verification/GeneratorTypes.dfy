/**
 The types of side packets: what a pass hands over is what the generators made, of the types they
 declare; and a pass over generators that keep to their types cannot fail.
 */
module GeneratorTypes {
  import opened Packets
  import opened PacketTypes
  import opened GeneratorGraph
  import opened GeneratorTasks

  // ---------------------------------------------------------------- what a result consists of

  predicate TypesHold(types: map<string, ResolvedType>, p: SidePackets) {
    forall n :: n in types ==> n in p && AcceptsPacket(types[n], p[n])
  }

  /** Generator `g`, run on its inputs among `p`, makes packets of the declared names and types, and `p` has them. */
  predicate Made(g: Generator, p: SidePackets) {
    var made := g.generate(map n | n in g.inputs && n in p :: p[n]);
    && made.Some? && made.value.Keys == g.outputs.Keys && TypesHold(g.outputs, made.value)
    && forall n :: n in made.value ==> n in p && p[n] == made.value[n]
  }

  /** This generator's turn in the pass has come: it is not skipped and all its inputs are there. */
  predicate Runs(cfg: Config, skip: seq<bool>, p: SidePackets, i: nat) {
    |skip| == |cfg| && i < |cfg| && !skip[i] && cfg[i].inputs.Keys <= p.Keys
  }

  /** The right types everywhere, everything that can be made is made, and nothing is made twice. */
  ghost predicate Consistent(cfg: Config, skip: seq<bool>, base: SidePackets, p: SidePackets) {
    && |skip| == |cfg|
    && (forall n :: n in base ==> n in p && p[n] == base[n])
    && (forall i, n :: 0 <= i < |cfg| && !skip[i] && n in cfg[i].inputs && n in p ==> AcceptsPacket(cfg[i].inputs[n], p[n]))
    && (forall i: nat :: Runs(cfg, skip, p, i) ==> Made(cfg[i], p))
    && (forall i: nat, n :: Runs(cfg, skip, p, i) && n in cfg[i].outputs ==> n !in base)
    && (forall i: nat, j: nat, n :: i < j && Runs(cfg, skip, p, i) && Runs(cfg, skip, p, j) && n in cfg[i].outputs ==> n !in cfg[j].outputs)
  }

  lemma SatisfiedMeans(g: Generator, p: SidePackets)
    ensures Satisfied(g, p) <==>
              && (forall n :: n in g.inputs && n in p ==> AcceptsPacket(g.inputs[n], p[n]))
              && (g.inputs.Keys <= p.Keys ==> Made(g, p))
  {
    assert InputsOf(g, p) == map n | n in g.inputs && n in p :: p[n];
    assert Runnable(g, p) <==> g.inputs.Keys <= p.Keys;
    var made := g.generate(InputsOf(g, p));
    assert made.Some? && made.value.Keys == g.outputs.Keys ==>
             (TypesHold(g.outputs, made.value) <==> forall n :: n in made.value ==> AcceptsPacket(g.outputs[n], made.value[n]));
  }

  /** What the pass looks for is exactly this. */
  lemma CleanMeansConsistent(cfg: Config, skip: seq<bool>, base: SidePackets, p: SidePackets)
    ensures Clean(cfg, skip, base, p) <==> Consistent(cfg, skip, base, p)
  {
    if |skip| == |cfg| {
      forall i | 0 <= i < |cfg|
        ensures Satisfied(cfg[i], p) <==>
                  && (forall n :: n in cfg[i].inputs && n in p ==> AcceptsPacket(cfg[i].inputs[n], p[n]))
                  && (cfg[i].inputs.Keys <= p.Keys ==> Made(cfg[i], p))
        ensures Runs(cfg, skip, p, i) <==> !skip[i] && Runnable(cfg[i], p)
      {
        SatisfiedMeans(cfg[i], p);
      }
    }
  }

  /** A consistent set without anything superfluous: what did not come from outside was made by a generator. */
  ghost predicate WellMade(cfg: Config, skip: seq<bool>, base: SidePackets, p: SidePackets) {
    && Consistent(cfg, skip, base, p)
    && forall n :: n in p && n !in base ==> exists i: nat :: Runs(cfg, skip, p, i) && n in cfg[i].outputs
  }

  // ---------------------------------------------------------------- generators that keep to their types

  /** Given packets of the types it asks for, and no others, the generator makes what it declares. */
  ghost predicate KeepsTypes(g: Generator) {
    forall ins: SidePackets :: ins.Keys == g.inputs.Keys && TypesHold(g.inputs, ins) ==>
      var made := g.generate(ins);
      made.Some? && made.value.Keys == g.outputs.Keys && TypesHold(g.outputs, made.value)
  }

  /** Whatever one generator may put out under a name, the other takes under that name. */
  ghost predicate Fits(a: Generator, b: Generator) {
    forall n, p :: n in a.outputs && n in b.inputs && AcceptsPacket(a.outputs[n], p) ==> AcceptsPacket(b.inputs[n], p)
  }

  /** A packet from outside, if there is one, has the type the generator asks for. */
  predicate TakesBase(g: Generator, base: SidePackets) {
    forall n :: n in g.inputs && n in base ==> AcceptsPacket(g.inputs[n], base[n])
  }

  /** Types are kept and fit together, and every name is made once. */
  ghost predicate WellTyped(cfg: Config, skip: seq<bool>, base: SidePackets) {
    && |skip| == |cfg|
    && (forall i :: 0 <= i < |cfg| && !skip[i] ==>
          KeepsTypes(cfg[i]) && TakesBase(cfg[i], base) && cfg[i].outputs.Keys !! base.Keys)
    && (forall i, j :: 0 <= i < |cfg| && 0 <= j < |cfg| && !skip[i] && !skip[j] ==> Fits(cfg[i], cfg[j]))
    && (forall i, j :: 0 <= i < j < |cfg| && !skip[i] && !skip[j] ==> cfg[i].outputs.Keys !! cfg[j].outputs.Keys)
  }

  predicate TypedBy(cfg: Config, skip: seq<bool>, n: string, packet: Packet, i: nat) {
    |skip| == |cfg| && i < |cfg| && !skip[i] && n in cfg[i].outputs && AcceptsPacket(cfg[i].outputs[n], packet)
  }

  ghost predicate PacketsTyped(cfg: Config, skip: seq<bool>, base: SidePackets, p: SidePackets) {
    forall n :: n in p ==> (n in base && p[n] == base[n]) || exists i: nat :: TypedBy(cfg, skip, n, p[n], i)
  }

  lemma NothingMistyped(cfg: Config, skip: seq<bool>, base: SidePackets, p: SidePackets, j: nat)
    requires WellTyped(cfg, skip, base) && PacketsTyped(cfg, skip, base, p) && j < |cfg| && !skip[j]
    ensures !Mistyped(cfg[j], p)
  {
    forall n | n in cfg[j].inputs && n in p
      ensures AcceptsPacket(cfg[j].inputs[n], p[n])
    {
      if !(n in base && p[n] == base[n]) {
        var i: nat :| TypedBy(cfg, skip, n, p[n], i);
        assert Fits(cfg[i], cfg[j]);
      }
    }
  }

  /** A task finds inputs of the right types, so its generator succeeds. */
  lemma TaskSucceeds(cfg: Config, skip: seq<bool>, base: SidePackets, s: State, w: nat)
    requires WellTyped(cfg, skip, base) && Inv(cfg, skip, base, s)
    requires 0 < w < |s.workers|
    ensures 0 <= s.workers[w].gen < |cfg| && !skip[s.workers[w].gen]
    ensures var g := cfg[s.workers[w].gen]; var made := Generate(g, s.workers[w].ins);
            made.Some? && made.value.Keys == g.outputs.Keys && TypesHold(g.outputs, made.value)
  {
    TaskFacts(cfg, skip, base, s, w);
    var g, ins := cfg[s.workers[w].gen], s.workers[w].ins;
    assert ins.Keys == g.inputs.Keys && TypesHold(g.inputs, ins);
    assert KeepsTypes(g);
  }

  /** What another task has made does not bear a name of this one's. */
  lemma OthersMadeOther(cfg: Config, skip: seq<bool>, base: SidePackets, s: State, v: nat, w: nat)
    requires WellTyped(cfg, skip, base) && TasksMatch(cfg, skip, s)
    requires IsTask(s, v) && IsTask(s, w) && v != w
    ensures 0 <= s.workers[v].gen < |cfg| && 0 <= s.workers[w].gen < |cfg|
    ensures cfg[s.workers[v].gen].outputs.Keys !! cfg[s.workers[w].gen].outputs.Keys
  {
    assert TaskAllowed(cfg, skip, s.scheduled, s.workers[v]) && TaskAllowed(cfg, skip, s.scheduled, s.workers[w]);
    assert s.workers[v].gen != s.workers[w].gen;
  }

  lemma NotOfTheBase(cfg: Config, skip: seq<bool>, base: SidePackets, i: nat, n: string)
    requires WellTyped(cfg, skip, base) && i < |cfg| && !skip[i] && n in base
    ensures n !in cfg[i].outputs
  {
    assert cfg[i].outputs.Keys !! base.Keys;
    assert n in base.Keys;
  }

  lemma MadeByAnother(cfg: Config, base: SidePackets, s: State, w: nat, n: string) returns (v: nat)
    requires Origins(cfg, base, s) && IsTask(s, w) && s.workers[w].phase == Running && n in s.packets && n !in base
    ensures IsTask(s, v) && v != w && 0 <= s.workers[v].gen < |cfg| && n in cfg[s.workers[v].gen].outputs
  {
    v :| IsTask(s, v) && PastRunning(s.workers[v]) && 0 <= s.workers[v].gen < |cfg| && n in cfg[s.workers[v].gen].outputs;
  }

  lemma NameIsNew(cfg: Config, skip: seq<bool>, base: SidePackets, s: State, w: nat, n: string)
    requires WellTyped(cfg, skip, base) && TasksMatch(cfg, skip, s) && Origins(cfg, base, s)
    requires IsTask(s, w) && s.workers[w].phase == Running && 0 <= s.workers[w].gen < |cfg| && !skip[s.workers[w].gen] && n in s.packets
    ensures n !in cfg[s.workers[w].gen].outputs
  {
    if n in base {
      NotOfTheBase(cfg, skip, base, s.workers[w].gen, n);
    } else {
      var v := MadeByAnother(cfg, base, s, w, n);
      OthersMadeOther(cfg, skip, base, s, v, w);
      assert n in cfg[s.workers[v].gen].outputs.Keys;
    }
  }

  /** And what it makes is new. */
  lemma TaskMakesNew(cfg: Config, skip: seq<bool>, base: SidePackets, s: State, w: nat)
    requires WellTyped(cfg, skip, base) && TasksMatch(cfg, skip, s) && Origins(cfg, base, s)
    requires IsTask(s, w) && s.workers[w].phase == Running && 0 <= s.workers[w].gen < |cfg| && !skip[s.workers[w].gen]
    ensures cfg[s.workers[w].gen].outputs.Keys !! s.packets.Keys
  {
    forall n | n in s.packets
      ensures n !in cfg[s.workers[w].gen].outputs
    {
      NameIsNew(cfg, skip, base, s, w, n);
    }
  }

  lemma RunningStep(cfg: Config, skip: seq<bool>, base: SidePackets, s: State, w: nat)
    requires WellTyped(cfg, skip, base) && Inv(cfg, skip, base, s) && PacketsTyped(cfg, skip, base, s.packets) && !s.failed
    requires Enabled(cfg, s, w) && s.workers[w].phase == Running
    ensures !Apply(cfg, s, w).failed && PacketsTyped(cfg, skip, base, Apply(cfg, s, w).packets)
  {
    TaskFacts(cfg, skip, base, s, w);
    TaskSucceeds(cfg, skip, base, s, w);
    TaskMakesNew(cfg, skip, base, s, w);
    RunEffect(cfg, s, w);
    var g := s.workers[w].gen;
    var made := Generate(cfg[g], s.workers[w].ins).value;
    forall n | n in made + s.packets
      ensures (n in base && (made + s.packets)[n] == base[n]) || exists i: nat :: TypedBy(cfg, skip, n, (made + s.packets)[n], i)
    {
      if n !in s.packets {
        assert TypedBy(cfg, skip, n, made[n], g);
      }
    }
  }

  lemma QueuedStep(cfg: Config, skip: seq<bool>, base: SidePackets, s: State, w: nat)
    requires Inv(cfg, skip, base, s) && !s.failed && Enabled(cfg, s, w) && s.workers[w].phase == Queued
    ensures !Apply(cfg, s, w).failed && Apply(cfg, s, w).packets == s.packets
  {
  }

  lemma ScanIsClean(cfg: Config, s: State, w: nat, i: nat)
    requires w < |s.workers| && |cfg| == |s.scheduled| && !s.failed
    requires i < |cfg| && !s.scheduled[i] ==> !Mistyped(cfg[i], s.packets)
    ensures var t := ScanOne(cfg, s, w, i); !t.failed && t.packets == s.packets
  {
  }

  lemma SkippedCountsAsScheduled(cfg: Config, skip: seq<bool>, s: State, i: nat)
    requires TasksMatch(cfg, skip, s) && i < |cfg| && !s.scheduled[i]
    ensures |skip| == |cfg| && !skip[i]
  {
  }

  lemma ScanningStep(cfg: Config, skip: seq<bool>, base: SidePackets, s: State, w: nat)
    requires WellTyped(cfg, skip, base) && TasksMatch(cfg, skip, s) && PacketsTyped(cfg, skip, base, s.packets) && !s.failed
    requires Enabled(cfg, s, w) && s.workers[w].phase.Scanning?
    ensures !Apply(cfg, s, w).failed && Apply(cfg, s, w).packets == s.packets
  {
    var i := s.workers[w].phase.next;
    if i < |cfg| && !s.scheduled[i] {
      SkippedCountsAsScheduled(cfg, skip, s, i);
      NothingMistyped(cfg, skip, base, s.packets, i);
    }
    ScanIsClean(cfg, s, w, i);
  }

  lemma TypedStep(cfg: Config, skip: seq<bool>, base: SidePackets, s: State, w: nat)
    requires WellTyped(cfg, skip, base) && Inv(cfg, skip, base, s) && PacketsTyped(cfg, skip, base, s.packets) && !s.failed
    requires Enabled(cfg, s, w)
    ensures !Apply(cfg, s, w).failed && PacketsTyped(cfg, skip, base, Apply(cfg, s, w).packets)
  {
    match s.workers[w].phase
    case Queued => QueuedStep(cfg, skip, base, s, w);
    case Running => RunningStep(cfg, skip, base, s, w);
    case Scanning(_) => ScanningStep(cfg, skip, base, s, w);
  }

  /** In a well-typed configuration no order of steps fails. */
  lemma {:induction false} TypedRunSucceeds(cfg: Config, skip: seq<bool>, base: SidePackets, s: State, ws: seq<nat>)
    requires WellTyped(cfg, skip, base) && Inv(cfg, skip, base, s) && PacketsTyped(cfg, skip, base, s.packets) && !s.failed
    requires IsRun(cfg, s, ws)
    ensures !Run(cfg, s, ws).failed
    decreases |ws|
  {
    if ws != [] {
      TypedStep(cfg, skip, base, s, ws[0]);
      StepKeepsInv(cfg, skip, base, s, ws[0]);
      TypedRunSucceeds(cfg, skip, base, Apply(cfg, s, ws[0]), ws[1..]);
    }
  }

  /** Somebody can go on as long as somebody has not finished. */
  lemma {:induction false} RunCanEnd(cfg: Config, skip: seq<bool>, base: SidePackets, s: State) returns (ws: seq<nat>)
    requires Inv(cfg, skip, base, s) && ScansInRange(cfg, s)
    ensures IsRun(cfg, s, ws) && AllFinished(Run(cfg, s, ws))
    decreases Work(|cfg|, s)
  {
    if AllFinished(s) {
      ws := [];
    } else {
      var w: nat :| w < |s.workers| && !s.workers[w].phase.Finished?;
      if !PastRunning(s.workers[w]) {
        TaskFacts(cfg, skip, base, s, w);
      }
      StepKeepsInv(cfg, skip, base, s, w);
      StepKeepsScans(cfg, s, w);
      StepDoesWork(cfg, s, w);
      var rest := RunCanEnd(cfg, skip, base, Apply(cfg, s, w));
      ws := [w] + rest;
      assert ws[1..] == rest;
    }
  }

  /** So a clean set of packets exists, and with it a result for every order of steps. */
  lemma WellTypedHasCleanSet(cfg: Config, skip: seq<bool>, base: SidePackets) returns (c: SidePackets)
    requires WellTyped(cfg, skip, base)
    ensures Clean(cfg, skip, base, c)
  {
    var s := Start(skip, base);
    StartHolds(cfg, skip, base);
    var ws := RunCanEnd(cfg, skip, base, s);
    TypedRunSucceeds(cfg, skip, base, s, ws);
    SuccessIsLeastClosure(cfg, skip, base, ws, Run(cfg, s, ws));
    c := Run(cfg, s, ws).packets;
  }
}
