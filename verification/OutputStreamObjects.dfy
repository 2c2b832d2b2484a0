/** The sending objects: OutputStreams and FanOut, performed in place. */
module OutputStreamObjects {
  import opened Timestamps
  import opened Packets
  import opened PacketTypes
  import opened InputStreams
  import opened InputStreamManagers
  import opened OutputStreams
  import opened FanOut

  class OutputStreamShard {
    var outputQueue: seq<Packet>
    var nextTimestampBound: Timestamp
    var updatedNextTimestampBound: Timestamp
    var closed: bool
    const packetType: ResolvedType

    ghost function State(): Shard
      reads this
    {
      Shard(outputQueue, nextTimestampBound, updatedNextTimestampBound, closed, packetType)
    }

    constructor (packetType: ResolvedType)
      ensures State() == OutputStreams.ResetShard(UNSET, false, packetType)
    {
      this.packetType := packetType;
      outputQueue, nextTimestampBound, updatedNextTimestampBound, closed := [], UNSET, UNSET, false;
    }

    method Reset(bound: Timestamp, close: bool)
      modifies this
      ensures State() == OutputStreams.ResetShard(bound, close, packetType)
    {
      outputQueue := [];
      nextTimestampBound := bound;
      updatedNextTimestampBound := UNSET;
      closed := close;
    }

    /** `ok` is false when the error callback is triggered. */
    method SetNextTimestampBound(bound: Timestamp) returns (ok: bool)
      modifies this
      ensures State() == ShardApply(old(State()), PromiseBound(bound))
      ensures ok <==> IsAllowedInStream(bound) || bound == ONE_OVER_POST_STREAM
    {
      if !IsAllowedInStream(bound) && bound != ONE_OVER_POST_STREAM {
        return false;
      }
      nextTimestampBound := bound;
      updatedNextTimestampBound := nextTimestampBound;
      ok := true;
    }

    method AddPacket(packet: Packet) returns (ok: bool)
      modifies this
      ensures State() == ShardApply(old(State()), OutputStreams.AddPacket(packet))
      ensures ok <==> !old(closed) && (packet.EmptyAt? || (IsAllowedInStream(packet.ts) && AcceptsPacket(packetType, packet)))
      ensures !ok ==> State() == old(State())
    {
      if closed {
        return false;
      }
      if packet.EmptyAt? {
        ok := SetNextTimestampBound(NextAllowedInStream(packet.ts));
        return true;
      }
      if !IsAllowedInStream(packet.ts) || !AcceptsPacket(packetType, packet) {
        return false;
      }
      outputQueue := outputQueue + [packet];
      nextTimestampBound := NextAllowedInStream(packet.ts);
      updatedNextTimestampBound := nextTimestampBound;
      ok := true;
    }

    method Close()
      modifies this
      ensures State() == ShardApply(old(State()), CloseOutput)
    {
      closed := true;
      nextTimestampBound := DONE;
      updatedNextTimestampBound := nextTimestampBound;
    }
  }

  /** One mirror's share of a propagation. */
  method SendTo(m: InputStreamManager, packets: seq<Packet>, addPackets: bool, next: Timestamp, setBound: bool)
    requires !m.packetType.SameAs?
    modifies m
    ensures m.State() == DeliverAll(old(m.State()), Messages(addPackets, packets, setBound, next))
  {
    MessagesDelivered(m.State(), packets, addPackets, next, setBound);
    if addPackets {
      var _, _, _ := m.AddPackets(packets);
    }
    if setBound {
      var _, _ := m.SetNextTimestampBound(next);
    }
  }

  lemma MessagesDelivered(m: Stream, packets: seq<Packet>, addPackets: bool, next: Timestamp, setBound: bool)
    requires !m.packetType.SameAs?
    ensures DeliverAll(m, Messages(addPackets, packets, setBound, next)) ==
            var r := if addPackets then Deliver(m, Batch(packets)) else m;
            if setBound then Deliver(r, Bound(next)) else r
  {
    var r := if addPackets then Deliver(m, Batch(packets)) else m;
    var bounds := if setBound then [Bound(next)] else [];
    assert DeliverAll(r, bounds) == if setBound then Deliver(r, Bound(next)) else r by {
      if setBound {
        assert bounds[1..] == [];
      }
    }
    if addPackets {
      assert ([Batch(packets)] + bounds)[1..] == bounds;
    } else {
      assert [] + bounds == bounds;
    }
  }

  /** Where a list of messages takes each stream. */
  ghost function Targets(before: seq<Stream>, msgs: seq<Message>): (r: seq<Stream>)
    requires forall i :: 0 <= i < |before| ==> !before[i].packetType.SameAs?
    ensures |r| == |before|
    ensures forall i :: 0 <= i < |before| ==> r[i] == DeliverAll(before[i], msgs)
  {
    seq(|before|, i requires 0 <= i < |before| => DeliverAll(before[i], msgs))
  }

  class OutputStreamManager {
    const mirrors: seq<InputStreamManager>
    const packetType: ResolvedType
    var offset: Offset
    var nextTimestampBound: Timestamp
    var closed: bool

    /** No input stream mirrors the output twice, so each mirror is its own object. */
    ghost predicate ValidMirrors()
    {
      && (forall i, j :: 0 <= i < j < |mirrors| ==> mirrors[i] != mirrors[j])
      && (forall i :: 0 <= i < |mirrors| ==> !mirrors[i].packetType.SameAs?)
    }

    ghost function MirrorStates(): seq<Stream>
      reads this, mirrors
    {
      seq(|mirrors|, i requires 0 <= i < |mirrors| reads this, mirrors => mirrors[i].State())
    }

    constructor (mirrors: seq<InputStreamManager>, packetType: ResolvedType)
      requires forall i, j :: 0 <= i < j < |mirrors| ==> mirrors[i] != mirrors[j]
      requires forall i :: 0 <= i < |mirrors| ==> !mirrors[i].packetType.SameAs?
      ensures ValidMirrors() && this.mirrors == mirrors && this.packetType == packetType
      ensures offset == NoOffset && nextTimestampBound == PRE_STREAM && !closed
    {
      this.mirrors, this.packetType := mirrors, packetType;
      offset, nextTimestampBound, closed := NoOffset, PRE_STREAM, false;
    }

    method ResetShard(shard: OutputStreamShard)
      modifies shard
      ensures shard.State() == OutputStreams.ResetShard(nextTimestampBound, closed, shard.packetType)
    {
      shard.Reset(nextTimestampBound, closed);
    }

    method ComputeOutputTimestampBound(shard: OutputStreamShard, inputTimestamp: Timestamp) returns (newBound: Timestamp)
      ensures newBound == OutputStreams.ComputeOutputTimestampBound(offset, shard.State(), inputTimestamp)
    {
      if inputTimestamp != UNSTARTED && !IsAllowedInStream(inputTimestamp) {
        return UNSET;
      }
      var inputBound := UNSET;
      if offset.Offset? && inputTimestamp != UNSTARTED {
        if inputTimestamp == PRE_STREAM {
          inputBound := MIN;
        } else if inputTimestamp == MAX {
          if offset.value >= 0 {
            inputBound := POST_STREAM;
          } else {
            inputBound := NextAllowedInStream(Add(inputTimestamp, offset.value));
          }
        } else if inputTimestamp == POST_STREAM {
          inputBound := ONE_OVER_POST_STREAM;
        } else {
          inputBound := Add(NextAllowedInStream(inputTimestamp), offset.value);
        }
      }
      newBound := UNSET;
      if inputBound > shard.nextTimestampBound {
        newBound := MaxOf(newBound, inputBound);
      }
      newBound := MaxOf(newBound, shard.updatedNextTimestampBound);
      if shard.outputQueue != [] {
        newBound := MaxOf(newBound, NextAllowedInStream(shard.outputQueue[|shard.outputQueue| - 1].ts));
      }
    }

    /** What has happened once the first `n` mirrors have been served. */
    ghost predicate Served(before: seq<Stream>, msgs: seq<Message>, n: nat)
      reads this, mirrors
    {
      && |before| == |mirrors|
      && (forall i :: 0 <= i < |mirrors| ==> !before[i].packetType.SameAs?)
      && (forall i :: 0 <= i < n && i < |mirrors| ==> mirrors[i].State() == DeliverAll(before[i], msgs))
      && (forall i :: n <= i < |mirrors| ==> mirrors[i].State() == before[i])
    }

    /** Copies the packets to every mirror but the last, which takes the originals. */
    method PropagateUpdatesToMirrors(next: Timestamp, shard: OutputStreamShard)
      requires ValidMirrors()
      modifies this`nextTimestampBound, shard`outputQueue, mirrors
      ensures nextTimestampBound == PropagatedBound(old(nextTimestampBound), next, false)
      ensures shard.outputQueue == []
      ensures Served(old(MirrorStates()), Propagation(old(shard.outputQueue), next), |mirrors|)
    {
      if next != UNSET {
        nextTimestampBound := next;
      }
      var addPackets := shard.outputQueue != [];
      var setBound := next != UNSET
                      && (!addPackets || NextAllowedInStream(shard.outputQueue[|shard.outputQueue| - 1].ts) != next);
      assert Propagation(shard.outputQueue, next) == Messages(addPackets, shard.outputQueue, setBound, next);
      ServeMirrors(shard, addPackets, next, setBound);
      shard.outputQueue := [];
    }

    /** One message list for all mirrors; the last of them empties the shard's queue. */
    method ServeMirrors(shard: OutputStreamShard, addPackets: bool, next: Timestamp, setBound: bool)
      requires ValidMirrors()
      modifies shard`outputQueue, mirrors
      ensures Served(old(MirrorStates()), Messages(addPackets, old(shard.outputQueue), setBound, next), |mirrors|)
    {
      ghost var before, msgs := MirrorStates(), Messages(addPackets, shard.outputQueue, setBound, next);
      ghost var targets := Targets(before, msgs);
      for idx := 0 to |mirrors|
        invariant idx < |mirrors| ==> shard.outputQueue == old(shard.outputQueue)
        invariant forall i :: 0 <= i < idx ==> mirrors[i].State() == targets[i]
        invariant forall i :: idx <= i < |mirrors| ==> mirrors[i].State() == before[i]
      {
        var packets := shard.outputQueue;
        if addPackets && idx == |mirrors| - 1 {
          shard.outputQueue := [];
        }
        SendTo(mirrors[idx], packets, addPackets, next, setBound);
      }
    }

    method Close()
      requires ValidMirrors()
      modifies this`closed, this`nextTimestampBound, mirrors
      ensures closed
      ensures nextTimestampBound == if old(closed) then old(nextTimestampBound) else DONE
      ensures Served(old(MirrorStates()), if old(closed) then [] else [Bound(DONE)], |mirrors|)
    {
      if closed {
        return;
      }
      closed := true;
      nextTimestampBound := DONE;
      BoundMirrors(DONE);
    }

    method BoundMirrors(next: Timestamp)
      requires ValidMirrors()
      modifies mirrors
      ensures Served(old(MirrorStates()), [Bound(next)], |mirrors|)
    {
      ghost var before := MirrorStates();
      assert Messages(false, [], true, next) == [Bound(next)];
      for idx := 0 to |mirrors|
        invariant Served(before, [Bound(next)], idx)
      {
        SendTo(mirrors[idx], [], false, next, true);
      }
    }
  }

  /** The messages of two rounds add up. */
  lemma ServedTwice(before: seq<Stream>, mid: seq<Stream>, after: seq<Stream>, a: seq<Message>, b: seq<Message>)
    requires |before| == |mid| == |after|
    requires forall i :: 0 <= i < |before| ==> !before[i].packetType.SameAs? && mid[i] == DeliverAll(before[i], a)
    requires forall i :: 0 <= i < |before| ==> !mid[i].packetType.SameAs? && after[i] == DeliverAll(mid[i], b)
    ensures forall i :: 0 <= i < |before| ==> after[i] == DeliverAll(before[i], a + b)
  {
    forall i | 0 <= i < |before|
      ensures after[i] == DeliverAll(before[i], a + b)
    {
      DeliverInParts(before[i], a, b);
    }
  }

  /** What the handler of a sequential node does with one output after Open or Process. */
  method PropagateOutputPackets(manager: OutputStreamManager, shard: OutputStreamShard, inputTimestamp: Timestamp)
    requires manager.ValidMirrors()
    modifies manager, shard`outputQueue, manager.mirrors
    ensures manager.closed == (old(manager.closed) || shard.closed) && manager.offset == old(manager.offset)
    ensures var next := ComputeOutputTimestampBound(manager.offset, old(shard.State()), inputTimestamp);
            if old(manager.closed) then
              && manager.nextTimestampBound == old(manager.nextTimestampBound)
              && manager.MirrorStates() == old(manager.MirrorStates())
            else
              && manager.nextTimestampBound == PropagatedBound(old(manager.nextTimestampBound), next, shard.closed)
              && manager.Served(old(manager.MirrorStates()),
                                Propagation(old(shard.outputQueue), next) + (if shard.closed then [Bound(DONE)] else []),
                                |manager.mirrors|)
  {
    if manager.closed {
      return;
    }
    ghost var before := manager.MirrorStates();
    var next := manager.ComputeOutputTimestampBound(shard, inputTimestamp);
    ghost var a := Propagation(shard.outputQueue, next);
    manager.PropagateUpdatesToMirrors(next, shard);
    ghost var mid := manager.MirrorStates();
    if shard.closed {
      manager.Close();
      ServedTwice(before, mid, manager.MirrorStates(), a, [Bound(DONE)]);
    } else {
      assert a + [] == a;
    }
  }

  /** A new lower limit on the inputs, passed on through the offset. */
  method TryPropagateTimestampBound(manager: OutputStreamManager, inputBound: Timestamp)
    requires manager.ValidMirrors()
    modifies manager, manager.mirrors
    ensures manager.closed == old(manager.closed) && manager.offset == old(manager.offset)
    ensures var next := if IsRangeValue(inputBound) && manager.offset.Offset? && !manager.closed
                           && Add(inputBound, manager.offset.value) > old(manager.nextTimestampBound)
                        then Add(inputBound, manager.offset.value) else UNSET;
            && manager.nextTimestampBound == PropagatedBound(old(manager.nextTimestampBound), next, false)
            && manager.Served(old(manager.MirrorStates()), Propagation([], next), |manager.mirrors|)
  {
    if !IsRangeValue(inputBound) {
      return;
    }
    var emptyOutput := new OutputStreamShard(manager.packetType);
    if manager.offset.Offset? && !manager.closed && Add(inputBound, manager.offset.value) > manager.nextTimestampBound {
      manager.PropagateUpdatesToMirrors(Add(inputBound, manager.offset.value), emptyOutput);
    }
  }
}
