/**
 The sending side of a stream: what a calculator writes during one call, and the bound that is
 promised downstream afterwards.

 `Sender` follows one output stream of a node whose calls do not overlap. The theorems are about
 calculators that keep the promises they make: see `Legal`.
 */
module OutputStreams {
  import opened Timestamps
  import opened Packets
  import opened PacketTypes
  import opened InputStreams

  // ---------------------------------------------------------------- one call's output

  datatype Shard = Shard(queue: seq<Packet>, bound: Timestamp, updated: Timestamp, closed: bool, packetType: ResolvedType)

  datatype Op =
    | AddPacket(packet: Packet)
    | PromiseBound(bound: Timestamp)
    | CloseOutput

  function ResetShard(bound: Timestamp, closed: bool, packetType: ResolvedType): Shard {
    Shard([], bound, UNSET, closed, packetType)
  }

  /** An illegal bound is reported as an error and changes nothing. */
  function ShardSetBound(s: Shard, bound: Timestamp): Shard {
    if !IsAllowedInStream(bound) && bound != ONE_OVER_POST_STREAM then s
    else s.(bound := bound, updated := bound)
  }

  /** An empty packet only moves the bound; a bad packet is reported as an error. */
  function ShardAddPacket(s: Shard, p: Packet): Shard {
    if s.closed then s
    else if p.EmptyAt? then ShardSetBound(s, NextAllowedInStream(p.ts))
    else if !IsAllowedInStream(p.ts) || !AcceptsPacket(s.packetType, p) then s
    else s.(queue := s.queue + [p], bound := NextAllowedInStream(p.ts), updated := NextAllowedInStream(p.ts))
  }

  function ShardApply(s: Shard, op: Op): Shard {
    match op
    case AddPacket(p) => ShardAddPacket(s, p)
    case PromiseBound(b) => ShardSetBound(s, b)
    case CloseOutput => s.(closed := true, bound := DONE, updated := DONE)
  }

  // ---------------------------------------------------------------- the promised bound

  datatype Offset = NoOffset | Offset(value: Int64)

  /** The bound that follows from the input timestamp and the declared offset alone. */
  function InputBound(offset: Offset, t: Timestamp): Timestamp {
    if offset.NoOffset? || t == UNSTARTED then UNSET
    else if t == PRE_STREAM then MIN
    else if t == MAX then
      if offset.value >= 0 then POST_STREAM else NextAllowedInStream(Add(t, offset.value))
    else if t == POST_STREAM then ONE_OVER_POST_STREAM
    else if IsRangeValue(t) then Add(NextAllowedInStream(t), offset.value)
    else UNSET
  }

  /** Unset means that nothing is to be propagated. */
  function ComputeOutputTimestampBound(offset: Offset, shard: Shard, t: Timestamp): Timestamp {
    if t != UNSTARTED && !IsAllowedInStream(t) then UNSET
    else
      var inputBound := InputBound(offset, t);
      var fromInput := if inputBound > shard.bound then inputBound else UNSET;
      var fromUpdates := MaxOf(fromInput, shard.updated);
      if shard.queue == [] then fromUpdates
      else MaxOf(fromUpdates, NextAllowedInStream(shard.queue[|shard.queue| - 1].ts))
  }

  // ---------------------------------------------------------------- the sender

  /** The last four fields are histories of what was sent, received and promised. */
  datatype Sender = Sender(
    bound: Timestamp,
    closed: bool,
    offset: Offset,
    packetType: ResolvedType,
    outputs: seq<Packet>,
    lastInput: Timestamp,
    inputBound: Timestamp,
    promised: Timestamp)

  function Begin(offset: Offset, packetType: ResolvedType): Sender {
    Sender(PRE_STREAM, false, offset, packetType, [], UNSET, UNSET, PRE_STREAM)
  }

  /** `t` may be the input timestamp of the next call; the first call is Open and the last one Close. */
  predicate NextInput(s: Sender, t: Timestamp) {
    if s.lastInput == UNSET then t == UNSTARTED
    else s.lastInput < t && (t == DONE || (IsAllowedInStream(t) && s.inputBound <= t))
  }

  /**
   An output the calculator may send while it processes `t`: in order, above what it promised,
   and not before t + offset. With an offset, Close has no input to answer.
   */
  predicate Legal(s: Sender, t: Timestamp, u: Timestamp) {
    && !s.closed
    && IsAllowedInStream(u)
    && (forall i :: 0 <= i < |s.outputs| ==> MayFollow(s.outputs[i].ts, u))
    && s.promised <= u
    && (s.offset.Offset? && IsRangeValue(t) ==> Add(t, s.offset.value) <= u)
    && (s.offset.Offset? && t == POST_STREAM ==> u == POST_STREAM)
    && (s.offset.Offset? ==> t != DONE)
  }

  /** A call in progress. */
  datatype Draft = Draft(sender: Sender, shard: Shard)

  predicate MaySetBound(d: Draft, b: Timestamp) {
    !d.sender.closed && (IsAllowedInStream(b) || b == ONE_OVER_POST_STREAM) && d.shard.bound <= b
  }

  /** The calculator's operation keeps its promises. */
  predicate WellBehaved(d: Draft, t: Timestamp, op: Op) {
    match op
    case AddPacket(p) =>
      if p.EmptyAt? then MaySetBound(d, NextAllowedInStream(p.ts))
      else Legal(d.sender, t, p.ts) && AcceptsPacket(d.sender.packetType, p)
    case PromiseBound(b) => MaySetBound(d, b)
    case CloseOutput => true
  }

  function Drafted(d: Draft, op: Op): Draft {
    var shard := ShardApply(d.shard, op);
    match op
    case AddPacket(p) =>
      if p.EmptyAt? then Draft(d.sender.(promised := MaxOf(d.sender.promised, NextAllowedInStream(p.ts))), shard)
      else Draft(d.sender.(outputs := d.sender.outputs + [p]), shard)
    case PromiseBound(b) => Draft(d.sender.(promised := MaxOf(d.sender.promised, b)), shard)
    case CloseOutput => Draft(d.sender.(closed := true), shard)
  }

  /** The operations of one call, each well behaved in its turn. */
  predicate WellBehavedCall(d: Draft, t: Timestamp, ops: seq<Op>)
    decreases |ops|
  {
    ops == [] || (WellBehaved(d, t, ops[0]) && WellBehavedCall(Drafted(d, ops[0]), t, ops[1..]))
  }

  function AfterOps(d: Draft, ops: seq<Op>): Draft
    decreases |ops|
  {
    if ops == [] then d else AfterOps(Drafted(d, ops[0]), ops[1..])
  }

  function StartCall(s: Sender): Draft {
    Draft(s, ResetShard(s.bound, s.closed, s.packetType))
  }

  /** The bound the manager holds after propagating `next` and, if the output was closed, closing. */
  function PropagatedBound(bound: Timestamp, next: Timestamp, closes: bool): Timestamp {
    if closes then DONE else if next == UNSET then bound else next
  }

  /** One call of Open, Process or Close, and the propagation that follows it. */
  function Processed(s: Sender, t: Timestamp, ops: seq<Op>): Sender {
    if t == DONE then AfterOps(StartCall(s), ops).sender.(bound := DONE, closed := true, lastInput := DONE)
    else if s.closed then s.(lastInput := t)
    else
      var d := AfterOps(StartCall(s), ops);
      var next := ComputeOutputTimestampBound(s.offset, d.shard, t);
      d.sender.(bound := PropagatedBound(s.bound, next, d.shard.closed), lastInput := t)
  }

  /** The bound a new lower limit on the inputs gives, if it gives any. */
  function BoundUpdate(s: Sender, b: Timestamp): Timestamp {
    if IsRangeValue(b) && s.offset.Offset? && !s.closed && Add(b, s.offset.value) > s.bound
    then Add(b, s.offset.value) else UNSET
  }

  function InputsBounded(s: Sender, b: Timestamp): Sender {
    var next := BoundUpdate(s, b);
    s.(bound := PropagatedBound(s.bound, next, false), inputBound := MaxOf(s.inputBound, b))
  }

  // ---------------------------------------------------------------- soundness of the promise

  /** The least value any later legal output must reach, whatever its input. */
  function Floor(s: Sender): Timestamp {
    MaxOf(s.promised, BoundAfter(s.outputs))
  }

  lemma LegalReachesFloor(s: Sender, t: Timestamp, u: Timestamp)
    requires Legal(s, t, u)
    requires OutputsAllowed(s)
    ensures Floor(s) <= u
  {
    if s.outputs != [] {
      assert AcceptablePacket(s.packetType, s.outputs[|s.outputs| - 1]);
      NextSeparatesFollowers(s.outputs[|s.outputs| - 1].ts, u);
    }
  }

  predicate OutputsAllowed(s: Sender) {
    Acceptable(s.packetType, s.outputs) && FollowChain(s.outputs)
  }

  /** What a call in progress may have put into its shard. */
  predicate DraftHolds(d: Draft, s: Sender, t: Timestamp) {
    && OutputsAllowed(d.sender)
    && d.sender.offset == s.offset && d.sender.bound == s.bound
    && d.sender.packetType == d.shard.packetType == s.packetType
    && d.sender.lastInput == s.lastInput && d.sender.inputBound == s.inputBound
    && d.shard.closed == d.sender.closed && (s.closed ==> d.sender.closed)
    && s.promised <= d.sender.promised
    && d.sender.outputs == s.outputs + d.shard.queue
    && (d.shard.updated == UNSET || d.shard.updated == d.shard.bound)
    && (d.shard.updated == UNSET ==> d.shard.queue == [] && d.shard.bound == s.bound)
    && (!d.sender.closed ==> d.shard.bound <= MaxOf(s.bound, Floor(d.sender)))
    && (d.shard.queue != [] ==> Legal(s, t, d.shard.queue[0].ts))
  }

  lemma AddKeepsAllowed(s: Sender, t: Timestamp, p: Packet)
    requires OutputsAllowed(s) && p.Data? && Legal(s, t, p.ts) && AcceptsPacket(s.packetType, p)
    ensures OutputsAllowed(s.(outputs := s.outputs + [p]))
  {
    AppendKeepsChain(s.outputs, p);
    assert AcceptablePacket(s.packetType, p);
  }

  lemma DraftAddStep(d: Draft, s: Sender, t: Timestamp, p: Packet)
    requires DraftHolds(d, s, t) && p.Data? && WellBehaved(d, t, AddPacket(p))
    ensures DraftHolds(Drafted(d, AddPacket(p)), s, t)
  {
    ConcatAssociates(s.outputs, d.shard.queue, p);
    AddKeepsAllowed(d.sender, t, p);
    LegalIsAntitone(s, d.sender, t, p.ts);
  }

  lemma ConcatAssociates(a: seq<Packet>, b: seq<Packet>, p: Packet)
    ensures a + (b + [p]) == (a + b) + [p]
  {
  }

  lemma DraftStep(d: Draft, s: Sender, t: Timestamp, op: Op)
    requires DraftHolds(d, s, t) && WellBehaved(d, t, op)
    ensures DraftHolds(Drafted(d, op), s, t)
  {
    match op
    case AddPacket(p) =>
      if p.Data? {
        DraftAddStep(d, s, t, p);
      }
    case PromiseBound(b) =>
    case CloseOutput =>
  }

  lemma {:induction false} DraftRun(d: Draft, s: Sender, t: Timestamp, ops: seq<Op>)
    requires DraftHolds(d, s, t) && WellBehavedCall(d, t, ops)
    ensures DraftHolds(AfterOps(d, ops), s, t)
    decreases |ops|
  {
    if ops != [] {
      DraftStep(d, s, t, ops[0]);
      DraftRun(Drafted(d, ops[0]), s, t, ops[1..]);
    }
  }

  /** No later legal output lies below the bound. */
  ghost predicate PromiseHolds(s: Sender) {
    && OutputsAllowed(s)
    && forall t, u :: NextInput(s, t) && Legal(s, t, u) ==> s.bound <= u
  }

  lemma BeginHolds(offset: Offset, packetType: ResolvedType)
    ensures PromiseHolds(Begin(offset, packetType))
  {
  }

  /** The bound computed from input `t` and the offset is kept by every output for a later input. */
  lemma InputBoundIsKept(s: Sender, t: Timestamp, t': Timestamp, u: Timestamp)
    requires IsAllowedInStream(t) && t < t' && (t' == DONE || IsAllowedInStream(t')) && Legal(s, t', u)
    ensures InputBound(s.offset, t) <= u
  {
    if s.offset.Offset? && IsRangeValue(t) && t < MAX && IsRangeValue(t') {
      AddIsMonotone(NextAllowedInStream(t), t', s.offset.value);
    }
  }

  /** A longer history and higher promises only make fewer outputs legal. */
  lemma LegalIsAntitone(s: Sender, r: Sender, t: Timestamp, u: Timestamp)
    requires s.outputs <= r.outputs && s.promised <= r.promised && s.offset == r.offset && (s.closed ==> r.closed)
    requires Legal(r, t, u)
    ensures Legal(s, t, u)
  {
    forall i | 0 <= i < |s.outputs|
      ensures MayFollow(s.outputs[i].ts, u)
    {
      assert s.outputs[i] == r.outputs[i];
    }
  }

  lemma ComputedBoundIsSound(s: Sender, d: Draft, t: Timestamp, u: Timestamp)
    requires DraftHolds(d, s, t) && s.bound <= u && Floor(d.sender) <= u && !d.sender.closed
    requires InputBound(s.offset, t) <= u
    ensures ComputeOutputTimestampBound(s.offset, d.shard, t) <= u
  {
    if d.shard.queue != [] {
      assert d.sender.outputs[|d.sender.outputs| - 1] == d.shard.queue[|d.shard.queue| - 1];
    }
  }

  lemma ProcessKeepsPromise(s: Sender, t: Timestamp, ops: seq<Op>)
    requires PromiseHolds(s) && NextInput(s, t) && WellBehavedCall(StartCall(s), t, ops)
    ensures PromiseHolds(Processed(s, t, ops))
  {
    var r := Processed(s, t, ops);
    var d := AfterOps(StartCall(s), ops);
    assert s.outputs + [] == s.outputs;
    DraftRun(StartCall(s), s, t, ops);
    if !s.closed && t != DONE {
      forall t', u | NextInput(r, t') && Legal(r, t', u)
        ensures r.bound <= u
      {
        ProcessedBoundIsSound(s, t, d, r, t', u);
      }
    }
  }

  lemma ProcessedBoundIsSound(s: Sender, t: Timestamp, d: Draft, r: Sender, t': Timestamp, u: Timestamp)
    requires PromiseHolds(s) && NextInput(s, t) && t != DONE && DraftHolds(d, s, t)
    requires r == d.sender.(bound := PropagatedBound(s.bound, ComputeOutputTimestampBound(s.offset, d.shard, t), d.shard.closed), lastInput := t)
    requires NextInput(r, t') && Legal(r, t', u)
    ensures r.bound <= u
  {
    LegalIsAntitone(s, r, t', u);
    LegalReachesFloor(r, t', u);
    LaterBound(s, t, t', u);
    ComputedBoundIsSound(s, d, t, u);
  }

  lemma LaterBound(s: Sender, t: Timestamp, t': Timestamp, u: Timestamp)
    requires PromiseHolds(s) && NextInput(s, t) && Legal(s, t', u)
    requires t < t' && (t' == DONE || (IsAllowedInStream(t') && s.inputBound <= t'))
    ensures s.bound <= u && InputBound(s.offset, t) <= u
  {
    if s.lastInput == UNSET {
      assert NextInput(s, UNSTARTED);
      assert Legal(s, UNSTARTED, u);
    } else {
      assert NextInput(s, t');
      InputBoundIsKept(s, t, t', u);
    }
  }

  lemma BoundUpdateKeepsPromise(s: Sender, b: Timestamp)
    requires PromiseHolds(s) && s.lastInput != UNSET
    ensures PromiseHolds(InputsBounded(s, b))
  {
    var r := InputsBounded(s, b);
    forall t, u | NextInput(r, t) && Legal(r, t, u)
      ensures r.bound <= u
    {
      LegalIsAntitone(s, r, t, u);
      assert NextInput(s, t);
      if BoundUpdate(s, b) != UNSET && IsRangeValue(t) {
        AddIsMonotone(b, t, s.offset.value);
      }
    }
  }

  // ---------------------------------------------------------------- runs

  datatype Event =
    | Call(t: Timestamp, ops: seq<Op>)
    | InputsFrom(b: Timestamp)

  predicate Admissible(s: Sender, e: Event) {
    match e
    case Call(t, ops) => NextInput(s, t) && WellBehavedCall(StartCall(s), t, ops)
    case InputsFrom(_) => s.lastInput != UNSET
  }

  function After(s: Sender, e: Event): Sender {
    match e
    case Call(t, ops) => Processed(s, t, ops)
    case InputsFrom(b) => InputsBounded(s, b)
  }

  predicate AdmissibleRun(s: Sender, es: seq<Event>)
    decreases |es|
  {
    es == [] || (Admissible(s, es[0]) && AdmissibleRun(After(s, es[0]), es[1..]))
  }

  function AfterRun(s: Sender, es: seq<Event>): Sender
    decreases |es|
  {
    if es == [] then s else AfterRun(After(s, es[0]), es[1..])
  }

  /** In every run the promised bound stays at or below every output still to come. */
  lemma {:induction false} PromiseHoldsInEveryRun(s: Sender, es: seq<Event>)
    requires PromiseHolds(s) && AdmissibleRun(s, es)
    ensures PromiseHolds(AfterRun(s, es))
    decreases |es|
  {
    if es != [] {
      match es[0] {
        case Call(t, ops) => ProcessKeepsPromise(s, t, ops);
        case InputsFrom(b) => BoundUpdateKeepsPromise(s, b);
      }
      PromiseHoldsInEveryRun(After(s, es[0]), es[1..]);
    }
  }

  /** So a legal output is never below the bound that was propagated. */
  lemma OffsetPromiseIsSound(offset: Offset, packetType: ResolvedType, es: seq<Event>, t: Timestamp, u: Timestamp)
    requires AdmissibleRun(Begin(offset, packetType), es)
    requires var s := AfterRun(Begin(offset, packetType), es); NextInput(s, t) && Legal(s, t, u)
    ensures AfterRun(Begin(offset, packetType), es).bound <= u
  {
    BeginHolds(offset, packetType);
    PromiseHoldsInEveryRun(Begin(offset, packetType), es);
  }

  // ---------------------------------------------------------------- the promise is made

  /** The bound that an operation leaves behind, for whoever sends it. */
  function PromiseOf(op: Op): Timestamp {
    match op
    case AddPacket(p) => NextAllowedInStream(p.ts)
    case PromiseBound(b) => b
    case CloseOutput => DONE
  }

  /** The largest of a lower limit and what the operations promise. */
  ghost predicate LargestPromise(low: Timestamp, ops: seq<Op>, bound: Timestamp) {
    && low <= bound
    && (forall op :: op in ops ==> PromiseOf(op) <= bound)
    && (bound == low || exists op :: op in ops && PromiseOf(op) == bound)
  }

  lemma LargestPromiseGrows(low: Timestamp, ops: seq<Op>, op: Op, bound: Timestamp)
    requires LargestPromise(low, ops, bound) && bound <= PromiseOf(op)
    ensures LargestPromise(low, ops + [op], PromiseOf(op))
  {
    assert op in ops + [op];
  }

  lemma LargestOfMore(low: Timestamp, more: Timestamp, ops: seq<Op>, bound: Timestamp)
    requires LargestPromise(low, ops, bound)
    ensures LargestPromise(MaxOf(low, more), ops, MaxOf(bound, more))
  {
  }

  /** The shard's bound follows the operations of a call that leaves the output open. */
  predicate ShardFollows(s: Sender, done: seq<Op>, d: Draft) {
    && !d.sender.closed
    && (d.shard.updated == UNSET <==> done == [])
    && (d.shard.queue != [] ==> NextAllowedInStream(d.shard.queue[|d.shard.queue| - 1].ts) <= d.shard.bound)
    && (done != [] ==> d.shard.updated == d.shard.bound)
    && (done == [] ==> d.shard.bound == s.bound)
  }

  lemma OperationRaisesBound(s: Sender, t: Timestamp, d: Draft, op: Op)
    requires PromiseHolds(s) && NextInput(s, t) && DraftHolds(d, s, t) && WellBehaved(d, t, op) && !op.CloseOutput? && !d.sender.closed
    ensures d.shard.bound <= PromiseOf(op) && Drafted(d, op).shard.bound == Drafted(d, op).shard.updated == PromiseOf(op)
    ensures !Drafted(d, op).sender.closed
    ensures Drafted(d, op).shard.queue ==
            if op.AddPacket? && op.packet.Data? then d.shard.queue + [op.packet] else d.shard.queue
  {
    if op.AddPacket? && op.packet.Data? {
      LegalIsAntitone(s, d.sender, t, op.packet.ts);
      LegalReachesFloor(d.sender, t, op.packet.ts);
    }
  }

  lemma {:induction false} OperationFollows(s: Sender, t: Timestamp, done: seq<Op>, d: Draft, op: Op)
    requires PromiseHolds(s) && NextInput(s, t) && DraftHolds(d, s, t) && WellBehaved(d, t, op) && !op.CloseOutput?
    requires ShardFollows(s, done, d) && LargestPromise(s.bound, done, d.shard.bound)
    ensures ShardFollows(s, done + [op], Drafted(d, op)) && LargestPromise(s.bound, done + [op], Drafted(d, op).shard.bound)
  {
    OperationRaisesBound(s, t, d, op);
    LargestPromiseGrows(s.bound, done, op, d.shard.bound);
  }

  /** The operations of one call, in order. */
  ghost predicate Follows(s: Sender, t: Timestamp, done: seq<Op>, d: Draft) {
    DraftHolds(d, s, t) && ShardFollows(s, done, d) && LargestPromise(s.bound, done, d.shard.bound)
  }

  lemma StepFollows(s: Sender, t: Timestamp, done: seq<Op>, d: Draft, op: Op)
    requires PromiseHolds(s) && NextInput(s, t) && Follows(s, t, done, d) && WellBehaved(d, t, op) && !op.CloseOutput?
    ensures Follows(s, t, done + [op], Drafted(d, op))
  {
    OperationFollows(s, t, done, d, op);
    DraftStep(d, s, t, op);
  }

  lemma OneOverToDone(done: seq<Op>, ops: seq<Op>)
    requires ops != []
    ensures (done + [ops[0]]) + ops[1..] == done + ops
  {
  }

  lemma {:induction false} OpsFollow(s: Sender, t: Timestamp, done: seq<Op>, d: Draft, ops: seq<Op>)
    requires PromiseHolds(s) && NextInput(s, t) && WellBehavedCall(d, t, ops) && CloseOutput !in ops && Follows(s, t, done, d)
    ensures Follows(s, t, done + ops, AfterOps(d, ops))
    decreases |ops|
  {
    if ops == [] {
      assert done + ops == done;
    } else {
      var op, rest := ops[0], ops[1..];
      StepFollows(s, t, done, d, op);
      assert CloseOutput !in rest;
      OpsFollow(s, t, done + [op], Drafted(d, op), rest);
      OneOverToDone(done, ops);
    }
  }

  /**
   After a call that leaves the output open the bound has reached everything the calculator has
   promised in it, with or without an offset, and it is no larger than the largest of these
   promises, the bound before the call and the one that follows from the input.
   */
  lemma {:induction false} ExplicitPromiseIsMade(s: Sender, t: Timestamp, ops: seq<Op>)
    requires PromiseHolds(s) && NextInput(s, t) && t != DONE && !s.closed
    requires WellBehavedCall(StartCall(s), t, ops) && CloseOutput !in ops
    ensures LargestPromise(MaxOf(s.bound, InputBound(s.offset, t)), ops, Processed(s, t, ops).bound)
    ensures forall op :: op in ops ==> PromiseOf(op) <= Processed(s, t, ops).bound
    ensures !Processed(s, t, ops).closed
  {
    var d := AfterOps(StartCall(s), ops);
    assert s.outputs + [] == s.outputs && [] + ops == ops;
    OpsFollow(s, t, [], StartCall(s), ops);
    LargestOfMore(s.bound, InputBound(s.offset, t), ops, d.shard.bound);
  }

  /** A call that closes the output promises that nothing will follow, and so does the last call, after which there is none. */
  lemma ClosingPromisesDone(s: Sender, t: Timestamp, ops: seq<Op>)
    requires !s.closed && (t == DONE || CloseOutput in ops)
    ensures Processed(s, t, ops).bound == DONE && Processed(s, t, ops).closed
    ensures t == DONE ==> forall t' :: !NextInput(Processed(s, t, ops), t')
  {
    if t != DONE {
      CloseStays(StartCall(s), ops);
    }
  }

  lemma {:induction false} CloseStays(d: Draft, ops: seq<Op>)
    requires d.shard.closed == d.sender.closed
    ensures var r := AfterOps(d, ops); r.shard.closed == r.sender.closed == (d.sender.closed || CloseOutput in ops)
    decreases |ops|
  {
    if ops != [] {
      CloseStays(Drafted(d, ops[0]), ops[1..]);
      assert CloseOutput in ops <==> ops[0] == CloseOutput || CloseOutput in ops[1..];
    }
  }

  /** After any call but the last the bound has reached what follows from the input. */
  lemma InputBoundIsReached(s: Sender, t: Timestamp, ops: seq<Op>)
    requires PromiseHolds(s) && NextInput(s, t) && WellBehavedCall(StartCall(s), t, ops) && !s.closed && t != DONE
    ensures InputBound(s.offset, t) <= Processed(s, t, ops).bound
  {
    assert s.outputs + [] == s.outputs;
    DraftRun(StartCall(s), s, t, ops);
  }

  /** And after a call for `t` the bound has reached the successor of `t`, shifted by the offset. */
  lemma OffsetPromiseIsMade(s: Sender, t: Timestamp, ops: seq<Op>)
    requires PromiseHolds(s) && NextInput(s, t) && WellBehavedCall(StartCall(s), t, ops)
    requires s.offset.Offset? && IsRangeValue(t) && t < MAX && !s.closed
    ensures Add(NextAllowedInStream(t), s.offset.value) <= Processed(s, t, ops).bound
  {
    assert s.outputs + [] == s.outputs;
    DraftRun(StartCall(s), s, t, ops);
  }

  /**
   The inputs without a successor in the range. After PostStream nothing may follow; after Max only
   PostStream, unless the offset is negative; and PreStream is not shifted at all.
   */
  lemma OffsetPromiseAtTheEnds(s: Sender, t: Timestamp, ops: seq<Op>)
    requires PromiseHolds(s) && NextInput(s, t) && WellBehavedCall(StartCall(s), t, ops)
    requires s.offset.Offset? && !s.closed
    ensures t == PRE_STREAM ==> MIN <= Processed(s, t, ops).bound
    ensures t == MAX && s.offset.value >= 0 ==> POST_STREAM <= Processed(s, t, ops).bound
    ensures t == MAX && s.offset.value < 0 ==> Add(MAX, s.offset.value) < Processed(s, t, ops).bound
    ensures t == POST_STREAM ==> ONE_OVER_POST_STREAM <= Processed(s, t, ops).bound
  {
    if t != DONE {
      InputBoundIsReached(s, t, ops);
      InputBoundIsExact(s.offset, t);
      if t == MAX && s.offset.value < 0 {
        assert Add(MAX, s.offset.value) as int == MAX as int + s.offset.value as int;
      }
    }
  }

  /** A lower limit on the inputs is passed on, shifted by the offset, and raises the bound no further. */
  lemma LimitIsPassedOn(s: Sender, b: Timestamp)
    ensures var r := InputsBounded(s, b);
            r.bound == if s.offset.Offset? && !s.closed && IsRangeValue(b) then MaxOf(s.bound, Add(b, s.offset.value)) else s.bound
  {
  }

  // ---------------------------------------------------------------- the values, exactly

  predicate LegalBound(b: Timestamp) {
    IsAllowedInStream(b) || b == ONE_OVER_POST_STREAM
  }

  /** The operations that are no error. A closed output still takes a bound. */
  predicate Takes(s: Shard, op: Op) {
    match op
    case AddPacket(p) =>
      !s.closed && if p.EmptyAt? then LegalBound(PromiseOf(op)) else IsAllowedInStream(p.ts) && AcceptsPacket(s.packetType, p)
    case PromiseBound(b) => LegalBound(b)
    case CloseOutput => true
  }

  /** An operation in error changes nothing; any other leaves its promise behind, and a packet joins the queue. */
  lemma OperationIsTaken(s: Shard, op: Op)
    ensures var r := ShardApply(s, op);
            if Takes(s, op) then
              && r.bound == r.updated == PromiseOf(op)
              && r.closed == (s.closed || op.CloseOutput?) && r.packetType == s.packetType
              && r.queue == if op.AddPacket? && op.packet.Data? then s.queue + [op.packet] else s.queue
            else r == s
  {
  }

  /**
   The bound an input implies is its successor shifted by the offset, kept inside the range, as
   long as there is one; PreStream and PostStream are not shifted, and Max gives PostStream unless
   the offset is negative.
   */
  lemma InputBoundIsExact(offset: Offset, t: Timestamp)
    ensures offset.NoOffset? || t == UNSTARTED ==> InputBound(offset, t) == UNSET
    ensures offset.Offset? && IsRangeValue(t) ==>
              var shifted := t as int + 1 + offset.value as int;
              InputBound(offset, t) as int ==
                if t == MAX && offset.value >= 0 then POST_STREAM as int
                else if shifted < MIN as int then MIN as int
                else if shifted > MAX as int then MAX as int
                else shifted
    ensures offset.Offset? ==> InputBound(offset, PRE_STREAM) == MIN && InputBound(offset, POST_STREAM) == ONE_OVER_POST_STREAM
  {
  }

  /** A call that writes nothing propagates the bound its input implies, and only if that is news. */
  lemma QuietCallPropagates(s: Sender, t: Timestamp)
    requires PRE_STREAM <= s.bound
    ensures var next := ComputeOutputTimestampBound(s.offset, StartCall(s).shard, t);
            if IsAllowedInStream(t) && s.bound < InputBound(s.offset, t) then next == InputBound(s.offset, t) else next == UNSET
  {
  }

  /** A new sender is open: whatever Open may write is sent on, and promised past. */
  lemma FirstPacketIsSent(offset: Offset, packetType: ResolvedType, p: Packet)
    requires p.Data? && IsAllowedInStream(p.ts) && AcceptsPacket(packetType, p)
    ensures var s := Begin(offset, packetType);
            && NextInput(s, UNSTARTED) && WellBehavedCall(StartCall(s), UNSTARTED, [AddPacket(p)])
            && var r := Processed(s, UNSTARTED, [AddPacket(p)]);
            r.outputs == [p] && r.bound == NextAllowedInStream(p.ts) && !r.closed
  {
    var d := StartCall(Begin(offset, packetType));
    var op := AddPacket(p);
    assert [op][1..] == [];
    assert AfterOps(d, [op]) == AfterOps(Drafted(d, op), []) == Drafted(d, op);
    assert WellBehavedCall(Drafted(d, op), UNSTARTED, []);
  }
}
