/** The stream object: the operations of InputStreams, performed in place. */
module InputStreamManagers {
  import opened Timestamps
  import opened Packets
  import opened PacketTypes
  import opened InputStreams

  /** The parts of a pop, put together. */
  lemma PopInParts(s: Stream, t: Timestamp, taken: nat, rest: Stream, packet: Packet, dropped: int)
    requires taken == CountUpTo(s.queue, t) && IsAllowedInStream(t)
    requires rest == s.(queue := s.queue[taken..], bound := if s.bound <= t then NextAllowedInStream(t) else s.bound, lastSelect := t)
    requires var last := if taken > 0 then s.queue[taken - 1] else EmptyAt(UNSET);
             if last.ts == t then packet == last && dropped == taken - 1
             else packet == EmptyAt(PreviousAllowedInStream(MinTimestampOrBound(rest))) && dropped == taken
    ensures PopAt(s, t) == PopOutcome(packet, dropped, IsDone(rest), IsFull(s) && !IsFull(rest), rest)
  {
  }

  class InputStreamManager {
    var queue: seq<Packet>
    var nextTimestampBound: Timestamp
    var lastSelectTimestamp: Timestamp
    var numPacketsAdded: nat
    var closed: bool
    var maxQueueSize: int
    const packetType: TypeSpec
    ghost var accepted: seq<Packet>

    ghost function State(): Stream
      reads this
    {
      Stream(queue, nextTimestampBound, lastSelectTimestamp, numPacketsAdded, closed, maxQueueSize, packetType, accepted)
    }

    constructor (packetType: TypeSpec)
      requires !packetType.SameAs?
      ensures State() == Prepared(packetType, -1) && Valid(State())
    {
      this.packetType := packetType;
      queue, numPacketsAdded, closed, maxQueueSize, accepted := [], 0, false, -1, [];
      nextTimestampBound, lastSelectTimestamp := PRE_STREAM, UNSTARTED;
    }

    method PrepareForRun()
      modifies this
      ensures State() == Prepared(packetType, old(maxQueueSize))
    {
      queue, numPacketsAdded, closed, accepted := [], 0, false, [];
      nextTimestampBound, lastSelectTimestamp := PRE_STREAM, UNSTARTED;
    }

    method MinTimestampOrBound() returns (ts: Timestamp, empty: bool)
      ensures Observation(empty, ts) == Observe(State())
    {
      empty := queue == [];
      ts := if queue == [] then nextTimestampBound else queue[0].ts;
    }

    method AddPackets(container: seq<Packet>) returns (status: Status, notify: bool, becameFull: bool)
      requires !packetType.SameAs?
      modifies this
      ensures AddOutcome(status, State(), notify, becameFull) == InputStreams.AddPackets(old(State()), container)
    {
      notify, becameFull := false, false;
      if closed {
        return OK, false, false;
      }
      var wasQueueFull := LimitReached(|queue|, maxQueueSize);
      var queueBecameNonEmpty := queue == [] && container != [];
      for n := 0 to |container|
        invariant !closed && maxQueueSize == old(maxQueueSize)
        invariant AppendAll(old(State()), container) == AppendAll(State(), container[n..])
      {
        var packet := container[n];
        assert container[n..][0] == packet && container[n..][1..] == container[n + 1..];
        if !AcceptsPacket(packetType, packet) {
          return TypeMismatch, false, false;
        }
        if !IsAllowedInStream(packet.ts) {
          return IllegalTimestamp, false, false;
        }
        if packet.ts == POST_STREAM && numPacketsAdded > 0 {
          return PostStreamNotAlone, false, false;
        }
        if packet.ts < nextTimestampBound {
          return TimestampTooLow, false, false;
        }
        nextTimestampBound := NextAllowedInStream(packet.ts);
        numPacketsAdded := numPacketsAdded + 1;
        queue := queue + [packet];
        accepted := accepted + [packet];
      }
      becameFull := !wasQueueFull && LimitReached(|queue|, maxQueueSize);
      notify := queueBecameNonEmpty;
      status := OK;
    }

    method SetNextTimestampBound(bound: Timestamp) returns (status: Status, notify: bool)
      modifies this
      ensures BoundOutcome(status, State(), notify) == SetBound(old(State()), bound)
    {
      notify, status := false, OK;
      if closed {
        return;
      }
      if bound < nextTimestampBound {
        return BoundDecreased, false;
      }
      if bound > nextTimestampBound {
        nextTimestampBound := bound;
        if queue == [] {
          notify := true;
        }
      }
    }

    method Close()
      modifies this
      ensures State() == InputStreams.Close(old(State()))
    {
      if closed {
        return;
      }
      nextTimestampBound, lastSelectTimestamp, closed := DONE, DONE, true;
    }

    /** Advances the queue to `timestamp`, keeping the last packet taken off. */
    method AdvanceTo(timestamp: Timestamp) returns (packet: Packet, taken: nat)
      modifies this`queue
      ensures taken <= |old(queue)|
      ensures taken == CountUpTo(old(queue), timestamp)
      ensures queue == old(queue)[taken..]
      ensures packet == if taken > 0 then old(queue)[taken - 1] else EmptyAt(UNSET)
    {
      packet, taken := EmptyAt(UNSET), 0;
      while queue != [] && queue[0].ts <= timestamp
        invariant taken <= |old(queue)| && queue == old(queue)[taken..]
        invariant forall i :: 0 <= i < taken ==> old(queue)[i].ts <= timestamp
        invariant packet == if taken > 0 then old(queue)[taken - 1] else EmptyAt(UNSET)
        decreases |queue|
      {
        packet := queue[0];
        queue := queue[1..];
        taken := taken + 1;
      }
    }

    method PopPacketAtTimestamp(timestamp: Timestamp)
      returns (packet: Packet, dropped: int, isDone: bool, becameNotFull: bool)
      requires lastSelectTimestamp <= timestamp && IsAllowedInStream(timestamp)
      modifies this`queue, this`nextTimestampBound, this`lastSelectTimestamp
      ensures PopOutcome(packet, dropped, isDone, becameNotFull, State()) == PopAt(old(State()), timestamp)
    {
      lastSelectTimestamp := timestamp;
      if nextTimestampBound <= timestamp {
        nextTimestampBound := NextAllowedInStream(timestamp);
      }
      var wasQueueFull := LimitReached(|queue|, maxQueueSize);
      var taken;
      packet, taken := AdvanceTo(timestamp);
      packet, dropped := SelectPacket(packet, taken, timestamp);
      becameNotFull := wasQueueFull && |queue| < maxQueueSize;
      isDone := queue == [] && nextTimestampBound == DONE;
      PopInParts(old(State()), timestamp, taken, State(), packet, dropped);
    }

    /** The last packet taken off if it carries the timestamp, an empty one otherwise; the count starts at -1. */
    method SelectPacket(last: Packet, taken: nat, timestamp: Timestamp) returns (packet: Packet, dropped: int)
      ensures if last.ts == timestamp then packet == last && dropped == taken - 1
              else packet == EmptyAt(PreviousAllowedInStream(InputStreams.MinTimestampOrBound(State()))) && dropped == taken
    {
      packet, dropped := last, -1 + taken;
      if last.ts != timestamp {
        var bound := if queue == [] then nextTimestampBound else queue[0].ts;
        packet := EmptyAt(PreviousAllowedInStream(bound));
        dropped := dropped + 1;
      }
    }

    method SetMaxQueueSize(size: int) returns (becameFull: bool, becameNotFull: bool)
      modifies this
      ensures State() == InputStreams.SetMaxQueueSize(old(State()), size)
      ensures becameFull == (!old(InputStreams.IsFull(State())) && InputStreams.IsFull(State()))
      ensures becameNotFull == (old(InputStreams.IsFull(State())) && !InputStreams.IsFull(State()))
    {
      var wasFull := LimitReached(|queue|, maxQueueSize);
      maxQueueSize := size;
      var isFull := LimitReached(|queue|, maxQueueSize);
      becameFull, becameNotFull := !wasFull && isFull, wasFull && !isFull;
    }

    method ErasePacketsEarlierThan(timestamp: Timestamp) returns (becameNotFull: bool)
      modifies this
      ensures State() == InputStreams.ErasePacketsEarlierThan(old(State()), timestamp)
      ensures becameNotFull == (old(InputStreams.IsFull(State())) && !InputStreams.IsFull(State()))
    {
      var wasQueueFull := LimitReached(|queue|, maxQueueSize);
      ghost var all := queue;
      ghost var n := 0;
      while queue != [] && queue[0].ts < timestamp
        invariant State() == old(State()).(queue := queue)
        invariant n <= |all| && queue == all[n..]
        invariant forall i :: 0 <= i < n ==> all[i].ts < timestamp
        decreases |queue|
      {
        queue := queue[1..];
        n := n + 1;
      }
      assert n == CountEarlierThan(all, timestamp);
      becameNotFull := wasQueueFull && |queue| < maxQueueSize;
    }
  }
}
