/**
 One output stream and the input streams that mirror it.

 A propagation sends a batch of packets and then a bound to every mirror, one call at a time,
 while the consumers pop and close as they please. `Link` keeps the calls still to be made to
 each mirror, so any interleaving of the calls with each other and with the consumers is a run.
 */
module FanOut {
  import opened Timestamps
  import opened Packets
  import opened PacketTypes
  import opened InputStreams
  import opened SyncSets
  import opened OutputStreams

  datatype Message =
    | Batch(packets: seq<Packet>)
    | Bound(bound: Timestamp)

  /** What one propagation sends to each mirror. A bound that the batch implies is not sent. */
  function Propagation(packets: seq<Packet>, next: Timestamp): seq<Message> {
    var setBound := next != UNSET && (packets == [] || NextAllowedInStream(packets[|packets| - 1].ts) != next);
    Messages(packets != [], packets, setBound, next)
  }

  function Messages(addPackets: bool, packets: seq<Packet>, setBound: bool, next: Timestamp): seq<Message> {
    (if addPackets then [Batch(packets)] else []) + (if setBound then [Bound(next)] else [])
  }

  /** The messages of one event at the sender, propagation first and closing second. */
  function Sent(s: Sender, e: Event): seq<Message> {
    match e
    case InputsFrom(b) => Propagation([], BoundUpdate(s, b))
    case Call(t, ops) =>
      var shard := AfterOps(StartCall(s), ops).shard;
      if t == DONE then Propagation(shard.queue, DONE) + (if s.closed then [] else [Bound(DONE)])
      else if s.closed then []
      else Propagation(shard.queue, ComputeOutputTimestampBound(s.offset, shard, t))
           + (if shard.closed then [Bound(DONE)] else [])
  }

  lemma {:induction false} ClosedTakesNoPacket(d: Draft, ops: seq<Op>)
    requires d.shard.closed
    ensures AfterOps(d, ops).shard.queue == d.shard.queue
    decreases |ops|
  {
    if ops != [] {
      ClosedTakesNoPacket(Drafted(d, ops[0]), ops[1..]);
    }
  }

  /** A closed output sends nothing more, whatever the calculator does, but a last Done when the node closes. */
  lemma ClosedSendsNothing(s: Sender, e: Event)
    requires s.closed
    ensures Sent(s, e) == if e.Call? && e.t == DONE then [Message.Bound(DONE)] else []
  {
    if e.Call? {
      ClosedTakesNoPacket(StartCall(s), e.ops);
    }
  }

  // ---------------------------------------------------------------- delivering messages

  function Deliver(m: Stream, msg: Message): (r: Stream)
    requires !m.packetType.SameAs?
    ensures r.packetType == m.packetType && r.closed == m.closed
  {
    match msg
    case Batch(packets) => AddPackets(m, packets).stream
    case Bound(bound) => SetBound(m, bound).stream
  }

  function StatusOf(m: Stream, msg: Message): Status
    requires !m.packetType.SameAs?
  {
    match msg
    case Batch(packets) => AddPackets(m, packets).status
    case Bound(bound) => SetBound(m, bound).status
  }

  lemma DeliverKeepsValid(m: Stream, msg: Message)
    requires Valid(m)
    ensures Valid(Deliver(m, msg))
  {
    match msg
    case Batch(packets) => AddPacketsKeepsValid(m, packets);
    case Bound(bound) => SetBoundKeepsValid(m, bound);
  }

  /** The stream after a list of messages, rejected ones included. */
  function DeliverAll(m: Stream, msgs: seq<Message>): (r: Stream)
    requires !m.packetType.SameAs?
    ensures r.packetType == m.packetType
    decreases |msgs|
  {
    if msgs == [] then m else DeliverAll(Deliver(m, msgs[0]), msgs[1..])
  }

  lemma {:induction false} DeliverInParts(m: Stream, a: seq<Message>, b: seq<Message>)
    requires !m.packetType.SameAs?
    ensures DeliverAll(m, a + b) == DeliverAll(DeliverAll(m, a), b)
    decreases |a|
  {
    if a == [] {
      assert a + b == b;
    } else {
      DeliverInParts(Deliver(m, a[0]), a[1..], b);
      assert (a + b)[1..] == a[1..] + b;
    }
  }

  /** The mirror takes all the messages, and they leave it with these contents and this bound. */
  ghost predicate Leads(m: Stream, msgs: seq<Message>, accepted: seq<Packet>, bound: Timestamp)
    requires !m.packetType.SameAs?
    decreases |msgs|
  {
    if msgs == [] then m.accepted == accepted && m.bound == bound
    else
      && StatusOf(m, msgs[0]) == OK
      && Leads(Deliver(m, msgs[0]), msgs[1..], accepted, bound)
  }

  /** An open mirror that has received this much. */
  ghost predicate At(m: Stream, packetType: TypeSpec, accepted: seq<Packet>, bound: Timestamp) {
    Valid(m) && !m.closed && m.packetType == packetType && m.accepted == accepted && m.bound == bound
  }

  /** Popping is invisible to the sender: what a mirror answers to a message does not depend on its queue. */
  predicate ReceivesAlike(a: Stream, b: Stream) {
    && a.bound == b.bound && a.numAdded == b.numAdded && a.closed == b.closed
    && a.packetType == b.packetType && a.accepted == b.accepted
  }

  lemma {:induction false} AppendAlike(a: Stream, b: Stream, ps: seq<Packet>)
    requires ReceivesAlike(a, b) && !a.packetType.SameAs?
    ensures AppendAll(a, ps).0 == AppendAll(b, ps).0 && ReceivesAlike(AppendAll(a, ps).1, AppendAll(b, ps).1)
    decreases |ps|
  {
    if ps != [] && CheckPacket(a, ps[0]) == OK {
      AppendAlike(Append(a, ps[0]), Append(b, ps[0]), ps[1..]);
    }
  }

  lemma DeliverAlike(a: Stream, b: Stream, msg: Message)
    requires ReceivesAlike(a, b) && !a.packetType.SameAs?
    ensures StatusOf(a, msg) == StatusOf(b, msg) && ReceivesAlike(Deliver(a, msg), Deliver(b, msg))
  {
    if msg.Batch? {
      AppendAlike(a, b, msg.packets);
    }
  }

  lemma {:induction false} LeadsAlike(a: Stream, b: Stream, msgs: seq<Message>, accepted: seq<Packet>, bound: Timestamp)
    requires ReceivesAlike(a, b) && !a.packetType.SameAs? && Leads(a, msgs, accepted, bound)
    ensures Leads(b, msgs, accepted, bound)
    decreases |msgs|
  {
    if msgs != [] {
      DeliverAlike(a, b, msgs[0]);
      LeadsAlike(Deliver(a, msgs[0]), Deliver(b, msgs[0]), msgs[1..], accepted, bound);
    }
  }

  /** If `more` leads from every stream the old messages may end in, it may be queued behind them. */
  lemma {:induction false} LeadsAppend(m: Stream, msgs: seq<Message>, s: Sender, more: seq<Message>, accepted: seq<Packet>, bound: Timestamp)
    requires Valid(m) && !m.closed && Leads(m, msgs, s.outputs, s.bound)
    requires forall r :: At(r, m.packetType, s.outputs, s.bound) ==> Leads(r, more, accepted, bound)
    ensures Leads(m, msgs + more, accepted, bound)
    decreases |msgs|
  {
    if msgs == [] {
      assert msgs + more == more;
    } else {
      DeliverKeepsValid(m, msgs[0]);
      LeadsAppend(Deliver(m, msgs[0]), msgs[1..], s, more, accepted, bound);
      assert (msgs + more)[0] == msgs[0] && (msgs + more)[1..] == msgs[1..] + more;
    }
  }

  // ---------------------------------------------------------------- a mirror takes what is sent

  lemma NextPacketPasses(m: Stream, p: Packet)
    requires Valid(m) && !m.closed && AcceptablePacket(m.packetType, p) && FollowChain(m.accepted + [p]) && m.bound <= p.ts
    ensures CheckPacket(m, p) == OK
  {
    if m.accepted != [] {
      var all := m.accepted + [p];
      assert MayFollow(all[0].ts, all[|all| - 1].ts);
    }
  }

  /** A batch in order, above the bound and of the right type goes in whole. */
  lemma {:induction false} BatchPasses(m: Stream, ps: seq<Packet>)
    requires Valid(m) && !m.closed && Acceptable(m.packetType, ps) && FollowChain(m.accepted + ps)
    requires ps != [] ==> m.bound <= ps[0].ts
    ensures AppendAll(m, ps).0 == OK && AppendAll(m, ps).1.accepted == m.accepted + ps
    ensures AppendAll(m, ps).1.bound == if ps == [] then m.bound else NextAllowedInStream(ps[|ps| - 1].ts)
    decreases |ps|
  {
    if ps == [] {
      assert m.accepted + ps == m.accepted;
    } else {
      ghost var all, k := m.accepted + ps, |m.accepted|;
      ChainPrefix(all, k + 1);
      assert all[..k + 1] == m.accepted + [ps[0]];
      assert AcceptablePacket(m.packetType, ps[0]);
      NextPacketPasses(m, ps[0]);
      AppendKeepsValid(m, ps[0]);
      ConcatStep(m.accepted, ps);
      if |ps| > 1 {
        assert MayFollow(all[k].ts, all[k + 1].ts);
        assert AcceptablePacket(m.packetType, ps[1]);
        NextSeparatesFollowers(ps[0].ts, ps[1].ts);
      }
      BatchPasses(Append(m, ps[0]), ps[1..]);
    }
  }

  /** The bound a propagation is meant to leave. */
  predicate BoundCovers(before: Timestamp, packets: seq<Packet>, next: Timestamp) {
    if next == UNSET then packets == []
    else if packets == [] then before <= next
    else NextAllowedInStream(packets[|packets| - 1].ts) <= next
  }

  lemma PropagationLeads(m: Stream, packets: seq<Packet>, next: Timestamp, rest: seq<Message>, accepted: seq<Packet>, bound: Timestamp)
    requires Valid(m) && !m.closed && Acceptable(m.packetType, packets) && FollowChain(m.accepted + packets)
    requires packets != [] ==> m.bound <= packets[0].ts
    requires BoundCovers(m.bound, packets, next)
    requires forall r :: At(r, m.packetType, m.accepted + packets, PropagatedBound(m.bound, next, false)) ==> Leads(r, rest, accepted, bound)
    ensures Leads(m, Propagation(packets, next) + rest, accepted, bound)
  {
    var msgs := Propagation(packets, next) + rest;
    if packets == [] {
      assert m.accepted + packets == m.accepted;
      BoundsLead(m, next, msgs, rest, accepted, bound);
    } else {
      BatchPasses(m, packets);
      DeliverKeepsValid(m, Batch(packets));
      assert msgs[0] == Batch(packets);
      BoundsLead(Deliver(m, Batch(packets)), next, msgs[1..], rest, accepted, bound);
    }
  }

  /** The part of a propagation that follows the batch. */
  lemma BoundsLead(r: Stream, next: Timestamp, bounds: seq<Message>, rest: seq<Message>, accepted: seq<Packet>, bound: Timestamp)
    requires Valid(r) && !r.closed && (next != UNSET ==> r.bound <= next)
    requires bounds == rest || bounds == [Bound(next)] + rest
    requires bounds == rest ==> PropagatedBound(r.bound, next, false) == r.bound
    requires bounds != rest ==> next != UNSET
    requires forall q :: At(q, r.packetType, r.accepted, PropagatedBound(r.bound, next, false)) ==> Leads(q, rest, accepted, bound)
    ensures Leads(r, bounds, accepted, bound)
  {
    if bounds == rest {
      assert At(r, r.packetType, r.accepted, r.bound);
    } else {
      DeliverKeepsValid(r, Bound(next));
      assert bounds[1..] == rest;
    }
  }

  /** Sending the implied bound as well would change nothing and notify nobody. */
  lemma SkippedBoundIsInvisible(m: Stream, packets: seq<Packet>)
    requires Valid(m) && !m.closed && packets != []
    requires AddPackets(m, packets).status == OK
    ensures var r := AddPackets(m, packets).stream;
            SetBound(r, NextAllowedInStream(packets[|packets| - 1].ts)) == BoundOutcome(OK, r, false)
  {
    LastBound(m, packets);
  }

  lemma {:induction false} LastBound(m: Stream, packets: seq<Packet>)
    requires !m.packetType.SameAs? && packets != [] && AppendAll(m, packets).0 == OK
    ensures AppendAll(m, packets).1.bound == NextAllowedInStream(packets[|packets| - 1].ts)
    decreases |packets|
  {
    if |packets| > 1 {
      LastBound(Append(m, packets[0]), packets[1..]);
    } else {
      assert packets[1..] == [];
    }
  }

  // ---------------------------------------------------------------- what the sender sends

  ghost predicate Subsumes(output: ResolvedType, input: TypeSpec) {
    && !input.SameAs?
    && forall p :: AcceptsPacket(output, p) ==> AcceptsPacket(input, p)
  }

  lemma {:induction false} ShardBoundGrows(d: Draft, s: Sender, t: Timestamp, ops: seq<Op>)
    requires PromiseHolds(s) && NextInput(s, t) && DraftHolds(d, s, t) && WellBehavedCall(d, t, ops)
    requires s.bound <= d.shard.bound
    ensures s.bound <= AfterOps(d, ops).shard.bound
    decreases |ops|
  {
    if ops != [] {
      DraftStep(d, s, t, ops[0]);
      if ops[0].AddPacket? && ops[0].packet.Data? {
        LegalIsAntitone(s, d.sender, t, ops[0].packet.ts);
      }
      ShardBoundGrows(Drafted(d, ops[0]), s, t, ops[1..]);
    }
  }

  /** The finished call of a well-behaved calculator. */
  ghost predicate Sendable(s: Sender, d: Draft, t: Timestamp) {
    && DraftHolds(d, s, t)
    && s.bound <= d.shard.bound
    && (d.shard.queue != [] ==> s.bound <= d.shard.queue[0].ts)
  }

  lemma CallIsSendable(s: Sender, t: Timestamp, ops: seq<Op>)
    requires PromiseHolds(s) && NextInput(s, t) && WellBehavedCall(StartCall(s), t, ops)
    ensures Sendable(s, AfterOps(StartCall(s), ops), t)
  {
    assert s.outputs + [] == s.outputs;
    DraftRun(StartCall(s), s, t, ops);
    ShardBoundGrows(StartCall(s), s, t, ops);
  }

  lemma ComputedBoundCovers(s: Sender, d: Draft, t: Timestamp)
    requires Sendable(s, d, t) && (t == UNSTARTED || IsAllowedInStream(t))
    ensures BoundCovers(s.bound, d.shard.queue, ComputeOutputTimestampBound(s.offset, d.shard, t))
  {
  }

  lemma PacketsAreAcceptable(s: Sender, d: Draft, t: Timestamp, m: Stream)
    requires Sendable(s, d, t) && Subsumes(s.packetType, m.packetType)
    ensures Acceptable(m.packetType, d.shard.queue) && FollowChain(s.outputs + d.shard.queue)
  {
    forall i | 0 <= i < |d.shard.queue|
      ensures AcceptablePacket(m.packetType, d.shard.queue[i])
    {
      assert d.sender.outputs[|s.outputs| + i] == d.shard.queue[i];
      assert AcceptablePacket(s.packetType, d.sender.outputs[|s.outputs| + i]);
    }
  }

  /** A closing message leaves any open mirror with the bound Done. */
  lemma ClosingLeads(r: Stream)
    requires Valid(r) && !r.closed
    ensures Leads(r, [Bound(DONE)], r.accepted, DONE)
  {
    DeliverKeepsValid(r, Bound(DONE));
    assert Leads(Deliver(r, Bound(DONE)), [], r.accepted, DONE);
  }

  /** The messages of any event bring an open mirror from the sender's old state to its new one. */
  lemma EventLeads(s: Sender, e: Event, m: Stream)
    requires PromiseHolds(s) && Admissible(s, e)
    requires At(m, m.packetType, s.outputs, s.bound) && Subsumes(s.packetType, m.packetType)
    ensures Leads(m, Sent(s, e), After(s, e).outputs, After(s, e).bound)
  {
    match e
    case InputsFrom(b) =>
      assert m.accepted + [] == m.accepted;
      PropagationLeads(m, [], BoundUpdate(s, b), [], After(s, e).outputs, After(s, e).bound);
      assert Propagation([], BoundUpdate(s, b)) + [] == Propagation([], BoundUpdate(s, b));
    case Call(t, ops) =>
      CallIsSendable(s, t, ops);
      CallLeads(s, t, ops, AfterOps(StartCall(s), ops), m);
  }

  lemma CallLeads(s: Sender, t: Timestamp, ops: seq<Op>, d: Draft, m: Stream)
    requires NextInput(s, t) && d == AfterOps(StartCall(s), ops) && Sendable(s, d, t)
    requires At(m, m.packetType, s.outputs, s.bound) && Subsumes(s.packetType, m.packetType)
    ensures Leads(m, Sent(s, Call(t, ops)), Processed(s, t, ops).outputs, Processed(s, t, ops).bound)
  {
    PacketsAreAcceptable(s, d, t, m);
    var next := if t == DONE then DONE else ComputeOutputTimestampBound(s.offset, d.shard, t);
    if t != DONE {
      ComputedBoundCovers(s, d, t);
    }
    var closes := if t == DONE then !s.closed else d.shard.closed;
    if t == DONE || !s.closed {
      var rest := if closes then [Bound(DONE)] else [];
      forall r | At(r, m.packetType, m.accepted + d.shard.queue, PropagatedBound(m.bound, next, false))
        ensures Leads(r, rest, d.sender.outputs, Processed(s, t, ops).bound)
      {
        ClosingLeads(r);
      }
      PropagationLeads(m, d.shard.queue, next, rest, d.sender.outputs, Processed(s, t, ops).bound);
    }
  }

  // ---------------------------------------------------------------- runs

  datatype Link = Link(sender: Sender, mirrors: seq<Stream>, pending: seq<seq<Message>>)

  datatype Step =
    | Send(event: Event)
    | Receive(mirror: nat)
    | Pop(mirror: nat, t: Timestamp)
    | CloseMirror(mirror: nat)

  ghost predicate Enabled(l: Link, step: Step) {
    match step
    case Send(e) => Admissible(l.sender, e)
    case Receive(i) => i < |l.mirrors| == |l.pending| && l.pending[i] != [] && Valid(l.mirrors[i])
    case Pop(i, t) => i < |l.mirrors| && SettledAt(l.mirrors[i], t)
    case CloseMirror(i) => i < |l.mirrors|
  }

  ghost function Apply(l: Link, step: Step): Link
    requires Enabled(l, step)
  {
    match step
    case Send(e) =>
      l.(sender := After(l.sender, e),
         pending := seq(|l.pending|, i requires 0 <= i < |l.pending| => l.pending[i] + Sent(l.sender, e)))
    case Receive(i) =>
      l.(mirrors := l.mirrors[i := Deliver(l.mirrors[i], l.pending[i][0])],
         pending := l.pending[i := l.pending[i][1..]])
    case Pop(i, t) => l.(mirrors := l.mirrors[i := PopAt(l.mirrors[i], t).stream])
    case CloseMirror(i) => l.(mirrors := l.mirrors[i := Close(l.mirrors[i])])
  }

  /** A mirror that has yet to receive `msgs` follows the sender. */
  ghost predicate Follows(s: Sender, m: Stream, msgs: seq<Message>) {
    && Valid(m) && Subsumes(s.packetType, m.packetType)
    && (m.closed || Leads(m, msgs, s.outputs, s.bound))
  }

  ghost predicate Inv(l: Link) {
    && PromiseHolds(l.sender)
    && |l.mirrors| == |l.pending|
    && forall i :: 0 <= i < |l.mirrors| ==> Follows(l.sender, l.mirrors[i], l.pending[i])
  }

  ghost predicate Initial(l: Link) {
    && (exists offset :: l.sender == Begin(offset, l.sender.packetType))
    && |l.mirrors| == |l.pending|
    && forall i :: 0 <= i < |l.mirrors| ==>
         && l.pending[i] == []
         && l.mirrors[i] == Prepared(l.mirrors[i].packetType, l.mirrors[i].maxQueueSize)
         && Subsumes(l.sender.packetType, l.mirrors[i].packetType)
  }

  lemma InitialHolds(l: Link)
    requires Initial(l)
    ensures Inv(l)
  {
    var offset :| l.sender == Begin(offset, l.sender.packetType);
    BeginHolds(offset, l.sender.packetType);
    forall i | 0 <= i < |l.mirrors|
      ensures Follows(l.sender, l.mirrors[i], l.pending[i])
    {
      PreparedIsValid(l.mirrors[i].packetType, l.mirrors[i].maxQueueSize);
    }
  }

  lemma AfterKeepsType(s: Sender, e: Event)
    requires PromiseHolds(s) && Admissible(s, e)
    ensures PromiseHolds(After(s, e)) && After(s, e).packetType == s.packetType
  {
    match e
    case Call(t, ops) =>
      ProcessKeepsPromise(s, t, ops);
      CallIsSendable(s, t, ops);
    case InputsFrom(b) => BoundUpdateKeepsPromise(s, b);
  }

  lemma SendKeepsFollowing(s: Sender, e: Event, m: Stream, msgs: seq<Message>)
    requires PromiseHolds(s) && Admissible(s, e) && Follows(s, m, msgs)
    ensures Follows(After(s, e), m, msgs + Sent(s, e))
  {
    AfterKeepsType(s, e);
    if !m.closed {
      forall r | At(r, m.packetType, s.outputs, s.bound)
        ensures Leads(r, Sent(s, e), After(s, e).outputs, After(s, e).bound)
      {
        EventLeads(s, e, r);
      }
      LeadsAppend(m, msgs, s, Sent(s, e), After(s, e).outputs, After(s, e).bound);
    }
  }

  lemma PopKeepsFollowing(s: Sender, m: Stream, msgs: seq<Message>, t: Timestamp)
    requires Follows(s, m, msgs) && SettledAt(m, t)
    ensures Follows(s, PopAt(m, t).stream, msgs)
  {
    SettledPop(m, t);
    LeadsAlike(m, PopAt(m, t).stream, msgs, s.outputs, s.bound);
  }

  lemma StepKeepsInv(l: Link, step: Step)
    requires Inv(l) && Enabled(l, step)
    ensures Inv(Apply(l, step))
  {
    var s := l.sender;
    match step
    case Send(e) =>
      AfterKeepsType(s, e);
      forall i | 0 <= i < |l.mirrors|
        ensures Follows(After(s, e), l.mirrors[i], l.pending[i] + Sent(s, e))
      {
        SendKeepsFollowing(s, e, l.mirrors[i], l.pending[i]);
      }
    case Receive(i) =>
      DeliverKeepsValid(l.mirrors[i], l.pending[i][0]);
    case Pop(i, t) =>
      PopKeepsFollowing(s, l.mirrors[i], l.pending[i], t);
    case CloseMirror(i) =>
      CloseKeepsValid(l.mirrors[i]);
  }

  ghost predicate IsRun(l: Link, steps: seq<Step>)
    decreases |steps|
  {
    steps == [] || (Enabled(l, steps[0]) && IsRun(Apply(l, steps[0]), steps[1..]))
  }

  ghost function Run(l: Link, steps: seq<Step>): Link
    requires IsRun(l, steps)
    decreases |steps|
  {
    if steps == [] then l else Run(Apply(l, steps[0]), steps[1..])
  }

  lemma {:induction false} RunKeepsInv(l: Link, steps: seq<Step>)
    requires Inv(l) && IsRun(l, steps)
    ensures Inv(Run(l, steps))
    decreases |steps|
  {
    if steps != [] {
      StepKeepsInv(l, steps[0]);
      RunKeepsInv(Apply(l, steps[0]), steps[1..]);
    }
  }

  /** In every run, an open mirror with nothing left to receive has the sender's packets and bound. */
  lemma MirrorsAgree(l: Link, steps: seq<Step>, i: nat)
    requires Initial(l) && IsRun(l, steps) && i < |Run(l, steps).mirrors| && i < |Run(l, steps).pending|
    ensures var r := Run(l, steps);
            r.pending[i] == [] && !r.mirrors[i].closed ==>
              r.mirrors[i].accepted == r.sender.outputs && r.mirrors[i].bound == r.sender.bound
  {
    InitialHolds(l);
    RunKeepsInv(l, steps);
    var r := Run(l, steps);
    assert Follows(r.sender, r.mirrors[i], r.pending[i]);
  }

  /** And no mirror ever rejects what it is sent. */
  lemma NoMirrorRejects(l: Link, steps: seq<Step>, i: nat)
    requires Initial(l) && IsRun(l, steps) && Enabled(Run(l, steps), Receive(i))
    ensures var r := Run(l, steps); StatusOf(r.mirrors[i], r.pending[i][0]) == OK
  {
    InitialHolds(l);
    RunKeepsInv(l, steps);
    var r := Run(l, steps);
    assert Follows(r.sender, r.mirrors[i], r.pending[i]);
  }
}
