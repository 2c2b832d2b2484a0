/**
 One input stream of a node: a queue of packets and a lower bound on the timestamps
 still to come.

 The operations are first given as functions on values, each one lock-protected region of
 the runtime; module InputStreamManagers holds the object that performs them in place.
 */
module InputStreams {
  import opened Timestamps
  import opened Packets
  import opened PacketTypes

  /** The last field is a history: every packet the stream ever accepted. */
  datatype Stream = Stream(
    queue: seq<Packet>,
    bound: Timestamp,
    lastSelect: Timestamp,
    numAdded: nat,
    closed: bool,
    maxQueueSize: int,
    packetType: TypeSpec,
    accepted: seq<Packet>)

  datatype Status =
    | OK
    | TypeMismatch
    | IllegalTimestamp
    | PostStreamNotAlone
    | TimestampTooLow
    | BoundDecreased

  datatype AddOutcome = AddOutcome(status: Status, stream: Stream, notify: bool, becameFull: bool)
  datatype BoundOutcome = BoundOutcome(status: Status, stream: Stream, notify: bool)
  datatype PopOutcome =
    PopOutcome(packet: Packet, dropped: int, isDone: bool, becameNotFull: bool, stream: Stream)

  /** What a consumer can see of a stream without popping. */
  datatype Observation = Observation(empty: bool, ts: Timestamp)

  function Prepared(packetType: TypeSpec, maxQueueSize: int): Stream {
    Stream([], PRE_STREAM, UNSTARTED, 0, false, maxQueueSize, packetType, [])
  }

  /** A queue limit of -1 means no limit; the other negative limits compare as huge unsigned ones. */
  predicate LimitReached(size: nat, limit: int) {
    0 <= limit <= size
  }

  /** The comparison as it is written: lengths are unsigned 64-bit values, and a negative limit converted to one is huge. */
  lemma LimitComparesUnsigned(size: nat, limit: int)
    requires size < 0x8000_0000_0000_0000 && -0x8000_0000 <= limit < 0x8000_0000
    ensures LimitReached(size, limit) <==>
              limit != -1 && size >= if limit < 0 then limit + 0x1_0000_0000_0000_0000 else limit
  {
  }

  predicate IsFull(s: Stream) {
    LimitReached(|s.queue|, s.maxQueueSize)
  }

  predicate IsDone(s: Stream) {
    s.queue == [] && s.bound == DONE
  }

  function MinTimestampOrBound(s: Stream): Timestamp {
    if s.queue == [] then s.bound else s.queue[0].ts
  }

  function Observe(s: Stream): Observation {
    Observation(s.queue == [], MinTimestampOrBound(s))
  }

  // ---------------------------------------------------------------- adding packets

  function CheckPacket(s: Stream, p: Packet): Status
    requires !s.packetType.SameAs?
  {
    if !AcceptsPacket(s.packetType, p) then TypeMismatch
    else if !IsAllowedInStream(p.ts) then IllegalTimestamp
    else if p.ts == POST_STREAM && s.numAdded > 0 then PostStreamNotAlone
    else if p.ts < s.bound then TimestampTooLow
    else OK
  }

  function Append(s: Stream, p: Packet): Stream {
    s.(queue := s.queue + [p],
       bound := NextAllowedInStream(p.ts),
       numAdded := s.numAdded + 1,
       accepted := s.accepted + [p])
  }

  /** Appends packets up to the first bad one; the good ones before it stay. */
  function AppendAll(s: Stream, ps: seq<Packet>): (r: (Status, Stream))
    requires !s.packetType.SameAs?
    ensures r.1.packetType == s.packetType && r.1.closed == s.closed
    decreases |ps|
  {
    if ps == [] then (OK, s)
    else if CheckPacket(s, ps[0]) != OK then (CheckPacket(s, ps[0]), s)
    else AppendAll(Append(s, ps[0]), ps[1..])
  }

  function AddPackets(s: Stream, ps: seq<Packet>): AddOutcome
    requires !s.packetType.SameAs?
  {
    if s.closed then AddOutcome(OK, s, false, false)
    else
      var (status, t) := AppendAll(s, ps);
      if status != OK then AddOutcome(status, t, false, false)
      else AddOutcome(OK, t, s.queue == [] && ps != [], !IsFull(s) && IsFull(t))
  }

  function SetBound(s: Stream, bound: Timestamp): BoundOutcome {
    if s.closed then BoundOutcome(OK, s, false)
    else if bound < s.bound then BoundOutcome(BoundDecreased, s, false)
    else BoundOutcome(OK, s.(bound := bound), s.bound < bound && s.queue == [])
  }

  function Close(s: Stream): Stream {
    if s.closed then s else s.(bound := DONE, lastSelect := DONE, closed := true)
  }

  function SetMaxQueueSize(s: Stream, size: int): Stream {
    s.(maxQueueSize := size)
  }

  // ---------------------------------------------------------------- popping

  /** The length of the longest prefix of packets no later than `t`. */
  function CountUpTo(q: seq<Packet>, t: Timestamp): (k: nat)
    ensures k <= |q|
    ensures forall i :: 0 <= i < k ==> q[i].ts <= t
    ensures k < |q| ==> t < q[k].ts
  {
    if q == [] || t < q[0].ts then 0 else 1 + CountUpTo(q[1..], t)
  }

  /** Takes `k` packets off the queue; the last one is the result if it carries `t`. */
  function TakeFront(s: Stream, t: Timestamp, k: nat): PopOutcome
    requires k <= |s.queue|
  {
    var found := k > 0 && s.queue[k - 1].ts == t;
    var rest := s.(queue := s.queue[k..],
                   bound := if s.bound <= t then NextAllowedInStream(t) else s.bound,
                   lastSelect := t);
    PopOutcome(
      if found then s.queue[k - 1] else EmptyAt(PreviousAllowedInStream(MinTimestampOrBound(rest))),
      if found then k - 1 else k,
      IsDone(rest),
      IsFull(s) && !IsFull(rest),
      rest)
  }

  function PopAt(s: Stream, t: Timestamp): PopOutcome {
    TakeFront(s, t, CountUpTo(s.queue, t))
  }

  /** Fixed-size input policies discard packets from the front. */
  function CountEarlierThan(q: seq<Packet>, t: Timestamp): (k: nat)
    ensures k <= |q|
    ensures forall i :: 0 <= i < k ==> q[i].ts < t
    ensures k < |q| ==> t <= q[k].ts
  {
    if q == [] || t <= q[0].ts then 0 else 1 + CountEarlierThan(q[1..], t)
  }

  function ErasePacketsEarlierThan(s: Stream, t: Timestamp): Stream {
    s.(queue := s.queue[CountEarlierThan(s.queue, t)..])
  }

  // ---------------------------------------------------------------- invariant

  /** Every two accepted packets may share a stream, in that order. */
  predicate FollowChain(ps: seq<Packet>) {
    forall i, j :: 0 <= i < j < |ps| ==> MayFollow(ps[i].ts, ps[j].ts)
  }

  predicate AcceptablePacket(packetType: TypeSpec, p: Packet)
    requires !packetType.SameAs?
  {
    AcceptsPacket(packetType, p) && IsAllowedInStream(p.ts)
  }

  predicate Acceptable(packetType: TypeSpec, ps: seq<Packet>)
    requires !packetType.SameAs?
  {
    forall i :: 0 <= i < |ps| ==> AcceptablePacket(packetType, ps[i])
  }

  function BoundAfter(ps: seq<Packet>): Timestamp {
    if ps == [] then PRE_STREAM else NextAllowedInStream(ps[|ps| - 1].ts)
  }

  predicate Suffix(q: seq<Packet>, all: seq<Packet>) {
    |q| <= |all| && q == all[|all| - |q|..]
  }

  ghost predicate Valid(s: Stream) {
    && !s.packetType.SameAs?
    && s.numAdded == |s.accepted|
    && Acceptable(s.packetType, s.accepted)
    && FollowChain(s.accepted)
    && BoundAfter(s.accepted) <= s.bound
    && Suffix(s.queue, s.accepted)
    && UNSTARTED <= s.lastSelect
    && (if s.closed then s.bound == DONE && s.lastSelect == DONE
        else s.lastSelect < s.bound && (s.queue != [] ==> s.lastSelect < s.queue[0].ts))
  }

  lemma PreparedIsValid(packetType: TypeSpec, maxQueueSize: int)
    requires !packetType.SameAs?
    ensures Valid(Prepared(packetType, maxQueueSize))
  {
  }

  /** Everything accepted lies below the bound its last packet left behind. */
  lemma AcceptedBelowBound(packetType: TypeSpec, ps: seq<Packet>, i: nat)
    requires !packetType.SameAs? && Acceptable(packetType, ps) && FollowChain(ps) && i < |ps|
    ensures ps[i].ts < BoundAfter(ps)
  {
    var last := |ps| - 1;
    assert AcceptablePacket(packetType, ps[last]);
    if i < last {
      assert MayFollow(ps[i].ts, ps[last].ts);
    }
  }

  lemma QueueFacts(s: Stream)
    requires Valid(s)
    ensures StrictlyIncreasing(s.queue)
    ensures forall i :: 0 <= i < |s.queue| ==> s.queue[i].Data? && IsAllowedInStream(s.queue[i].ts) && s.queue[i].ts < s.bound
    ensures !s.closed ==> forall i :: 0 <= i < |s.queue| ==> s.lastSelect < s.queue[i].ts
  {
    var d := |s.accepted| - |s.queue|;
    forall i | 0 <= i < |s.queue|
      ensures s.queue[i] == s.accepted[d + i]
      ensures s.queue[i].Data? && IsAllowedInStream(s.queue[i].ts) && s.queue[i].ts < s.bound
    {
      assert AcceptablePacket(s.packetType, s.accepted[d + i]);
      AcceptedBelowBound(s.packetType, s.accepted, d + i);
    }
    forall i, j | 0 <= i < j < |s.queue|
      ensures s.queue[i].ts < s.queue[j].ts
    {
      assert MayFollow(s.accepted[d + i].ts, s.accepted[d + j].ts);
    }
  }

  lemma AppendKeepsChain(ps: seq<Packet>, p: Packet)
    requires FollowChain(ps)
    requires ps != [] ==> MayFollow(ps[|ps| - 1].ts, p.ts)
    ensures FollowChain(ps + [p])
  {
    forall i, j | 0 <= i < j < |ps + [p]|
      ensures MayFollow((ps + [p])[i].ts, (ps + [p])[j].ts)
    {
      if j == |ps| && i < |ps| - 1 {
        assert MayFollow(ps[i].ts, ps[|ps| - 1].ts);
      } else if j < |ps| {
        assert MayFollow(ps[i].ts, ps[j].ts);
      }
    }
  }

  lemma AppendKeepsSuffix(q: seq<Packet>, all: seq<Packet>, p: Packet)
    requires Suffix(q, all)
    ensures Suffix(q + [p], all + [p])
  {
    var d := |all| - |q|;
    assert (all + [p])[d..] == all[d..] + [p];
  }

  lemma AcceptedMayFollow(s: Stream, p: Packet)
    requires Valid(s) && CheckPacket(s, p) == OK && s.accepted != []
    ensures MayFollow(s.accepted[|s.accepted| - 1].ts, p.ts)
  {
    var last := s.accepted[|s.accepted| - 1];
    assert AcceptablePacket(s.packetType, last);
    NextSeparatesFollowers(last.ts, p.ts);
  }

  lemma AppendKeepsValid(s: Stream, p: Packet)
    requires Valid(s) && !s.closed && CheckPacket(s, p) == OK
    ensures Valid(Append(s, p))
    ensures s.bound <= p.ts < Append(s, p).bound
  {
    if s.accepted != [] {
      AcceptedMayFollow(s, p);
    }
    AppendKeepsChain(s.accepted, p);
    AppendKeepsSuffix(s.queue, s.accepted, p);
    assert AcceptablePacket(s.packetType, p);
  }

  /** What a producer's operation leaves alone, and how it may move the rest. */
  ghost predicate Grows(s: Stream, t: Stream) {
    && t.packetType == s.packetType && t.lastSelect == s.lastSelect && t.closed == s.closed
    && s.bound <= t.bound
    && s.queue <= t.queue
    && t.accepted == s.accepted + t.queue[|s.queue|..]
    && forall i :: |s.queue| <= i < |t.queue| ==> s.bound <= t.queue[i].ts
  }

  lemma GrowsIsTransitive(r: Stream, s: Stream, t: Stream)
    requires Grows(r, s) && Grows(s, t)
    ensures Grows(r, t)
  {
    assert t.queue[|r.queue|..] == s.queue[|r.queue|..] + t.queue[|s.queue|..];
    forall i | |r.queue| <= i < |t.queue|
      ensures r.bound <= t.queue[i].ts
    {
      assert i < |s.queue| ==> t.queue[i] == s.queue[i];
    }
  }

  lemma ConcatExtension<T>(a: seq<T>, q: seq<T>, t: seq<T>)
    requires q <= t
    ensures (a + q) + t[|q|..] == a + t
  {
  }

  lemma AppendGrows(s: Stream, p: Packet)
    requires Valid(s) && !s.closed && CheckPacket(s, p) == OK
    ensures Grows(s, Append(s, p))
  {
    assert (s.queue + [p])[|s.queue|..] == [p];
  }

  lemma ConcatStep<T>(a: seq<T>, b: seq<T>)
    requires b != []
    ensures (a + [b[0]]) + b[1..] == a + b
  {
  }

  lemma {:induction false} AppendAllKeepsValid(s: Stream, ps: seq<Packet>)
    requires Valid(s) && !s.closed
    ensures Valid(AppendAll(s, ps).1) && !AppendAll(s, ps).1.closed
    decreases |ps|
  {
    if ps != [] && CheckPacket(s, ps[0]) == OK {
      AppendKeepsValid(s, ps[0]);
      AppendAllKeepsValid(Append(s, ps[0]), ps[1..]);
    }
  }

  lemma {:induction false} AppendAllGrows(s: Stream, ps: seq<Packet>)
    requires Valid(s) && !s.closed
    ensures Grows(s, AppendAll(s, ps).1)
    ensures AppendAll(s, ps).1.maxQueueSize == s.maxQueueSize
    ensures AppendAll(s, ps).0 == OK ==> AppendAll(s, ps).1.accepted == s.accepted + ps
    decreases |ps|
  {
    if ps != [] && CheckPacket(s, ps[0]) == OK {
      var mid, tail := Append(s, ps[0]), ps[1..];
      ConcatStep(s.accepted, ps);
      AppendKeepsValid(s, ps[0]);
      AppendGrows(s, ps[0]);
      AppendAllGrows(mid, tail);
      GrowsIsTransitive(s, mid, AppendAll(mid, tail).1);
    }
  }

  /** Adding packets, whatever its outcome, keeps the invariant and only extends the stream. */
  lemma AddPacketsKeepsValid(s: Stream, ps: seq<Packet>)
    requires Valid(s)
    ensures Valid(AddPackets(s, ps).stream)
    ensures Grows(s, AddPackets(s, ps).stream)
    ensures AddPackets(s, ps).stream.maxQueueSize == s.maxQueueSize
    ensures AddPackets(s, ps).status == OK && !s.closed ==> AddPackets(s, ps).stream.accepted == s.accepted + ps
  {
    if !s.closed {
      AppendAllKeepsValid(s, ps);
      AppendAllGrows(s, ps);
    }
  }

  lemma SetBoundKeepsValid(s: Stream, bound: Timestamp)
    requires Valid(s)
    ensures Valid(SetBound(s, bound).stream) && Grows(s, SetBound(s, bound).stream)
  {
  }

  /** A closed stream ends at Done, and the check of a later selection would fail at every timestamp. */
  lemma CloseKeepsValid(s: Stream)
    requires Valid(s)
    ensures Valid(Close(s))
    ensures MinTimestampOrBound(Close(s)) == (if s.queue == [] then DONE else s.queue[0].ts)
    ensures forall t :: IsAllowedInStream(t) ==> t < Close(s).lastSelect
  {
  }

  /** A PreStream or PostStream packet is the only packet its stream ever accepts. */
  lemma SpecialPacketIsAlone(s: Stream, i: nat)
    requires Valid(s) && i < |s.accepted| && |s.accepted| > 1
    ensures IsRangeValue(s.accepted[i].ts)
  {
    assert i == 0 ==> MayFollow(s.accepted[0].ts, s.accepted[1].ts);
    assert i > 0 ==> MayFollow(s.accepted[0].ts, s.accepted[i].ts);
  }

  // ---------------------------------------------------------------- popping is exact

  /** The packets of `q` that are later than `t`. */
  function LaterThan(q: seq<Packet>, t: Timestamp): seq<Packet> {
    if q == [] then []
    else (if t < q[0].ts then [q[0]] else []) + LaterThan(q[1..], t)
  }

  /** How many packets of `q` are earlier than `t`. */
  function NumEarlierThan(q: seq<Packet>, t: Timestamp): nat {
    if q == [] then 0
    else (if q[0].ts < t then 1 else 0) + NumEarlierThan(q[1..], t)
  }

  /** How many packets of `q` carry exactly `t`. */
  function NumAt(q: seq<Packet>, t: Timestamp): nat {
    if q == [] then 0
    else (if q[0].ts == t then 1 else 0) + NumAt(q[1..], t)
  }

  lemma {:induction false} AllLater(q: seq<Packet>, t: Timestamp)
    requires forall i :: 0 <= i < |q| ==> t < q[i].ts
    ensures LaterThan(q, t) == q && NumEarlierThan(q, t) == NumAt(q, t) == 0 && CountUpTo(q, t) == 0
  {
    if q != [] {
      AllLater(q[1..], t);
      assert q == [q[0]] + q[1..];
    }
  }

  lemma DropOfTail<T>(q: seq<T>, k: nat)
    requires q != [] && k < |q|
    ensures q[1..][k..] == q[k + 1..]
    ensures q == [q[0]] + q[1..]
  {
  }

  lemma {:induction false} PrefixIsLaterThan(q: seq<Packet>, t: Timestamp)
    requires StrictlyIncreasing(q)
    ensures q[CountUpTo(q, t)..] == LaterThan(q, t)
    decreases |q|
  {
    if q != [] {
      var tail := q[1..];
      if t < q[0].ts {
        AllLater(q, t);
      } else {
        PrefixIsLaterThan(tail, t);
        var k := CountUpTo(tail, t);
        DropOfTail(q, k);
        assert CountUpTo(q, t) == k + 1 && LaterThan(q, t) == [] + LaterThan(tail, t);
      }
    }
  }

  lemma {:induction false} PrefixSplitsSortedQueue(q: seq<Packet>, t: Timestamp)
    requires StrictlyIncreasing(q)
    ensures CountUpTo(q, t) == NumEarlierThan(q, t) + NumAt(q, t)
    ensures NumAt(q, t) == if CountUpTo(q, t) > 0 && q[CountUpTo(q, t) - 1].ts == t then 1 else 0
    decreases |q|
  {
    if q != [] {
      var tail := q[1..];
      if t <= q[0].ts {
        AllLater(tail, t);
      } else {
        PrefixSplitsSortedQueue(tail, t);
      }
    }
  }

  /** Popping at `t` leaves exactly the later packets and counts exactly the earlier ones. */
  lemma PopIsExact(s: Stream, t: Timestamp)
    requires Valid(s) && s.lastSelect <= t && IsAllowedInStream(t)
    ensures PopAt(s, t).stream.queue == LaterThan(s.queue, t)
    ensures PopAt(s, t).dropped == NumEarlierThan(s.queue, t)
    ensures s.bound <= PopAt(s, t).stream.bound && t < PopAt(s, t).stream.bound
  {
    QueueFacts(s);
    TakeFrontIsExact(s, t);
  }

  lemma TakeFrontIsExact(s: Stream, t: Timestamp)
    requires StrictlyIncreasing(s.queue)
    ensures PopAt(s, t).stream.queue == LaterThan(s.queue, t)
    ensures PopAt(s, t).dropped == NumEarlierThan(s.queue, t)
  {
    PrefixIsLaterThan(s.queue, t);
    PrefixSplitsSortedQueue(s.queue, t);
  }

  /** It returns the one packet at `t` if the queue has it, and otherwise an empty packet. */
  lemma PopReturnsThePacket(s: Stream, t: Timestamp, p: Packet)
    requires Valid(s) && s.lastSelect <= t && IsAllowedInStream(t)
    ensures p in s.queue && p.ts == t <==> PopAt(s, t).packet.Data? && p == PopAt(s, t).packet
  {
    QueueFacts(s);
    LastTakenIsThePacket(s.queue, t, p);
  }

  lemma LastTakenIsThePacket(q: seq<Packet>, t: Timestamp, p: Packet)
    requires StrictlyIncreasing(q)
    ensures p in q && p.ts == t <==> CountUpTo(q, t) > 0 && q[CountUpTo(q, t) - 1].ts == t && p == q[CountUpTo(q, t) - 1]
  {
    var k := CountUpTo(q, t);
    if p in q && p.ts == t {
      var i :| 0 <= i < |q| && q[i] == p;
      assert i < k;
      InOrder(q, i, k - 1);
    }
  }

  lemma InOrder(q: seq<Packet>, i: nat, j: nat)
    requires StrictlyIncreasing(q) && i <= j < |q|
    ensures i < j ==> q[i].ts < q[j].ts
  {
  }

  /**
   The stamp of an empty packet is a promise: whatever producers still add, every packet that the
   stream hands out later is later than the stamp.
   */
  lemma EmptyStampIsKept(s: Stream, t: Timestamp, later: Stream, p: Packet)
    requires Valid(s) && s.lastSelect <= t && IsAllowedInStream(t) && PopAt(s, t).packet.EmptyAt?
    requires Grows(PopAt(s, t).stream, later) && Valid(later) && p in later.queue
    ensures PopAt(s, t).packet.ts < p.ts
  {
    PopKeepsValid(s, t);
    EmptyStamp(s, t);
    LaterPacketsAreAbove(PopAt(s, t).stream, later, p);
  }

  /** The earliest timestamp that can still follow a pop at `t`, read off the stream before it. */
  function NextAfter(s: Stream, t: Timestamp): Timestamp {
    var later := LaterThan(s.queue, t);
    if later != [] then later[0].ts else if s.bound <= t then NextAllowedInStream(t) else s.bound
  }

  lemma NextAfterIsSeen(s: Stream, t: Timestamp)
    requires Valid(s) && s.lastSelect <= t && IsAllowedInStream(t)
    ensures MinTimestampOrBound(PopAt(s, t).stream) == NextAfter(s, t)
  {
    PopIsExact(s, t);
  }

  /**
   A pop that finds nothing reaches with its stamp the timestamp asked for, except next to the
   special values, where the code falls back on an earlier one.
   */
  lemma EmptyStampReaches(s: Stream, t: Timestamp)
    requires Valid(s) && s.lastSelect <= t && IsAllowedInStream(t)
    requires forall p :: p in s.queue ==> p.ts != t
    ensures PopAt(s, t).packet.EmptyAt? && PopAt(s, t).packet.ts == PreviousAllowedInStream(NextAfter(s, t))
    ensures t <= PopAt(s, t).packet.ts <==> t != POST_STREAM && NextAfter(s, t) != MIN && NextAfter(s, t) != POST_STREAM
  {
    PopReturnsThePacket(s, t, PopAt(s, t).packet);
    EmptyStamp(s, t);
    NextAfterIsSeen(s, t);
    StampReaches(t, NextAfter(s, t));
  }

  lemma StampReaches(t: Timestamp, next: Timestamp)
    requires IsAllowedInStream(t) && t < next
    ensures t <= PreviousAllowedInStream(next) <==> t != POST_STREAM && next != MIN && next != POST_STREAM
  {
  }

  /** One input for each exception: PostStream itself, a bound of Min, and a bound of PostStream. */
  lemma EmptyStampFallsBack(packetType: ResolvedType)
    ensures var s := Prepared(packetType, -1);
            && Valid(s)
            && PopAt(s, POST_STREAM).packet == EmptyAt(MAX)
            && PopAt(SetBound(s, MIN).stream, PRE_STREAM).packet == EmptyAt(UNSTARTED)
            && PopAt(SetBound(s, POST_STREAM).stream, 5).packet == EmptyAt(UNSTARTED)
  {
  }

  lemma EmptyStamp(s: Stream, t: Timestamp)
    requires Valid(s) && s.lastSelect <= t && IsAllowedInStream(t) && PopAt(s, t).packet.EmptyAt?
    ensures PopAt(s, t).packet.ts == PreviousAllowedInStream(MinTimestampOrBound(PopAt(s, t).stream))
    ensures t < MinTimestampOrBound(PopAt(s, t).stream)
  {
    QueueFacts(s);
  }

  lemma LaterPacketsAreAbove(s: Stream, t: Stream, p: Packet)
    requires Valid(t) && Grows(s, t) && p in t.queue
    ensures PreviousAllowedInStream(MinTimestampOrBound(s)) < p.ts
  {
    QueueFacts(t);
    assert s.queue != [] ==> t.queue[0] == s.queue[0];
    assert MinTimestampOrBound(s) <= t.queue[0].ts <= p.ts;
  }

  lemma PopKeepsValid(s: Stream, t: Timestamp)
    requires Valid(s) && s.lastSelect <= t && IsAllowedInStream(t)
    ensures Valid(PopAt(s, t).stream)
  {
    SuffixOfSuffix(s.queue, s.accepted, CountUpTo(s.queue, t));
  }

  lemma SuffixOfSuffix(q: seq<Packet>, all: seq<Packet>, k: nat)
    requires Suffix(q, all) && k <= |q|
    ensures Suffix(q[k..], all)
  {
    assert q[k..] == all[|all| - |q| + k..];
  }

  // ---------------------------------------------------------------- the done flag

  /** The done flag of a pop, read off the stream before it: nothing later waits, and the producer has finished. */
  lemma DoneMeansFinished(s: Stream, t: Timestamp)
    requires Valid(s) && s.lastSelect <= t && IsAllowedInStream(t)
    ensures PopAt(s, t).isDone <==> LaterThan(s.queue, t) == [] && s.bound == DONE
  {
    PopIsExact(s, t);
  }

  /** Whatever producers do, the stream has nothing more to hand out. */
  ghost predicate NothingToCome(s: Stream) {
    forall later :: Grows(s, later) && Valid(later) ==> later.queue == []
  }

  /** Some packet is of a type that the stream accepts. */
  ghost predicate SomePacketFits(packetType: TypeSpec)
    requires !packetType.SameAs?
  {
    exists p :: AcceptsPacket(packetType, p)
  }

  /** The bound leaves no room for a packet: it is past PostStream, or at PostStream and that may only come alone. */
  predicate BoundIsFinal(s: Stream) {
    s.bound > POST_STREAM || (s.bound == POST_STREAM && s.accepted != [])
  }

  lemma RoomForOneMore(s: Stream, p: Packet)
    requires Valid(s) && !s.closed && AcceptsPacket(s.packetType, p) && p.ts == s.bound && !BoundIsFinal(s)
    ensures Grows(s, Append(s, p)) && Valid(Append(s, p)) && Append(s, p).queue != []
  {
    AppendKeepsValid(s, p);
    AppendGrows(s, p);
  }

  /** A packet that did come shows that there was room for it. */
  lemma ComingNeedsRoom(s: Stream, later: Stream)
    requires Valid(s) && Grows(s, later) && Valid(later) && s.queue == [] && later.queue != []
    ensures !BoundIsFinal(s) && SomePacketFits(s.packetType)
  {
    QueueFacts(later);
    var p := later.queue[0];
    var d := |later.accepted| - |later.queue|;
    assert AcceptablePacket(later.packetType, later.accepted[d]);
    if s.accepted != [] {
      assert later.accepted == s.accepted + later.queue;
      assert MayFollow(later.accepted[0].ts, later.accepted[d].ts);
    }
  }

  /**
   A pop that reports done is the last one of any use. The flag is not raised in every such case:
   a stream is also at its end when its bound has passed PostStream without being Done, when it has
   reached PostStream and accepted a packet, or when no packet is of its type.
   */
  lemma {:induction false} DoneMeansNothingToCome(s: Stream, t: Timestamp)
    requires Valid(s) && s.lastSelect <= t && IsAllowedInStream(t)
    ensures PopAt(s, t).isDone ==> NothingToCome(PopAt(s, t).stream)
    ensures NothingToCome(PopAt(s, t).stream) <==>
              LaterThan(s.queue, t) == [] && (BoundIsFinal(PopAt(s, t).stream) || !SomePacketFits(s.packetType))
  {
    PopKeepsValid(s, t);
    PopIsExact(s, t);
    var r := PopAt(s, t).stream;
    assert Grows(r, r) by {
      assert r.queue[|r.queue|..] == [];
    }
    if r.queue == [] {
      if BoundIsFinal(r) || !SomePacketFits(r.packetType) {
        forall later | Grows(r, later) && Valid(later)
          ensures later.queue == []
        {
          if later.queue != [] { ComingNeedsRoom(r, later); }
        }
      } else {
        var p :| AcceptsPacket(r.packetType, p);
        RoomForOneMore(r, Data(r.bound, p.typeId, 0));
      }
    }
  }

  /** A stream popped at PostStream has ended, and does not say so. */
  lemma EndWithoutDone(packetType: ResolvedType)
    ensures var s := Prepared(packetType, -1);
            && Valid(s) && !PopAt(s, POST_STREAM).isDone
            && NothingToCome(PopAt(s, POST_STREAM).stream)
  {
    PreparedIsValid(packetType, -1);
    DoneMeansNothingToCome(Prepared(packetType, -1), POST_STREAM);
  }

  // ---------------------------------------------------------------- what is accepted and what is refused

  /** A bound is refused exactly if it lies below the one before; then nothing changes, and otherwise it is the bound. */
  lemma BoundIsRefusedIffLower(s: Stream, bound: Timestamp)
    requires !s.closed
    ensures var r := SetBound(s, bound);
            && (r.status == OK <==> s.bound <= bound)
            && r.stream == if s.bound <= bound then s.(bound := bound) else s
  {
  }

  lemma FirstGoodFollows(s: Stream, ps: seq<Packet>)
    requires Valid(s) && !s.closed && ps != []
    ensures CheckPacket(s, ps[0]) == OK <==>
              && AcceptablePacket(s.packetType, ps[0]) && s.bound <= ps[0].ts
              && FollowChain(s.accepted + [ps[0]])
  {
    var p, all := ps[0], s.accepted + [ps[0]];
    if CheckPacket(s, p) == OK {
      if s.accepted != [] {
        AcceptedMayFollow(s, p);
      }
      AppendKeepsChain(s.accepted, p);
    }
    if FollowChain(all) && s.accepted != [] {
      assert MayFollow(all[0].ts, all[|all| - 1].ts);
    }
  }

  /** Of the right type, in order, not below the bound, and able to follow everything accepted before. */
  predicate Orderly(s: Stream, ps: seq<Packet>)
    requires !s.packetType.SameAs?
  {
    Acceptable(s.packetType, ps) && FollowChain(s.accepted + ps) && (ps != [] ==> s.bound <= ps[0].ts)
  }

  lemma ChainPrefix(ps: seq<Packet>, k: nat)
    requires FollowChain(ps) && k <= |ps|
    ensures FollowChain(ps[..k])
  {
  }

  lemma AcceptableInParts(packetType: TypeSpec, ps: seq<Packet>)
    requires !packetType.SameAs? && ps != []
    ensures Acceptable(packetType, ps) <==> AcceptablePacket(packetType, ps[0]) && Acceptable(packetType, ps[1..])
  {
    assert forall i :: 0 < i < |ps| ==> ps[i] == ps[1..][i - 1];
  }

  lemma OrderlyFirst(s: Stream, ps: seq<Packet>)
    requires Valid(s) && !s.closed && ps != [] && Orderly(s, ps)
    ensures CheckPacket(s, ps[0]) == OK
  {
    var all, k := s.accepted + ps, |s.accepted|;
    ChainPrefix(all, k + 1);
    assert all[..k + 1] == s.accepted + [ps[0]];
    AcceptableInParts(s.packetType, ps);
    FirstGoodFollows(s, ps);
  }

  lemma OrderlyRest(s: Stream, ps: seq<Packet>)
    requires Valid(s) && !s.closed && ps != [] && CheckPacket(s, ps[0]) == OK
    ensures Orderly(s, ps) <==> Orderly(Append(s, ps[0]), ps[1..])
  {
    var all, k := s.accepted + ps, |s.accepted|;
    ConcatStep(s.accepted, ps);
    AcceptableInParts(s.packetType, ps);
    FirstGoodFollows(s, ps);
    if |ps| > 1 && FollowChain(all) && Acceptable(s.packetType, ps) {
      assert MayFollow(all[k].ts, all[k + 1].ts);
      assert AcceptablePacket(s.packetType, ps[1]);
      NextSeparatesFollowers(ps[0].ts, ps[1].ts);
    }
  }

  /** An open stream takes a batch exactly if it is orderly. */
  lemma {:induction false} BatchIsAcceptedIffOrderly(s: Stream, ps: seq<Packet>)
    requires Valid(s) && !s.closed
    ensures AddPackets(s, ps).status == OK <==> Orderly(s, ps)
    decreases |ps|
  {
    if ps == [] {
      assert s.accepted + ps == s.accepted;
    } else if CheckPacket(s, ps[0]) == OK {
      AppendKeepsValid(s, ps[0]);
      OrderlyRest(s, ps);
      BatchIsAcceptedIffOrderly(Append(s, ps[0]), ps[1..]);
    } else if Orderly(s, ps) {
      OrderlyFirst(s, ps);
    }
  }

  // ---------------------------------------------------------------- notifications

  /** A successful call notifies exactly when what the consumer sees has changed. */
  lemma NotifiesIffObservable(s: Stream, ps: seq<Packet>, bound: Timestamp)
    requires Valid(s)
    ensures var r := AddPackets(s, ps);
            r.status == OK ==> (r.notify <==> Observe(r.stream) != Observe(s))
    ensures var r := SetBound(s, bound);
            r.notify <==> Observe(r.stream) != Observe(s)
  {
    AddPacketsKeepsValid(s, ps);
    var r := AddPackets(s, ps);
    if s.queue != [] {
      assert r.stream.queue[0] == s.queue[0];
    } else if r.status == OK && !s.closed && ps != [] {
      assert |r.stream.queue| == |ps|;
    }
  }

  /** A failed call never notifies, yet it changes what the consumer sees exactly here. */
  lemma FailedAddIsObservable(s: Stream, ps: seq<Packet>)
    requires Valid(s) && AddPackets(s, ps).status != OK
    ensures !AddPackets(s, ps).notify
    ensures Observe(AddPackets(s, ps).stream) != Observe(s) <==> s.queue == [] && CheckPacket(s, ps[0]) == OK
  {
    AddPacketsKeepsValid(s, ps);
    var t := AddPackets(s, ps).stream;
    if s.queue != [] {
      assert t.queue[0] == s.queue[0];
    } else if CheckPacket(s, ps[0]) == OK {
      AppendKeepsValid(s, ps[0]);
      AppendAllGrows(Append(s, ps[0]), ps[1..]);
      assert t.queue[0] == ps[0];
    }
  }

  /** A good packet followed by a late one: the first stays, and nobody is told. */
  lemma FailedAddExample()
    ensures var s := Prepared(AnyType, 1);
            var ps := [Data(5, 0, 0), Data(4, 0, 0)];
            var r := AddPackets(s, ps);
            && Valid(s) && r.status == TimestampTooLow && !r.notify && !r.becameFull
            && Observe(r.stream) != Observe(s) && IsFull(r.stream) && !IsFull(s)
  {
    var s := Prepared(AnyType, 1);
    var ps := [Data(5, 0, 0), Data(4, 0, 0)];
    assert CheckPacket(s, ps[0]) == OK;
    assert NextAllowedInStream(5) == 6;
    assert ps[1..] == [Data(4, 0, 0)];
    assert AppendAll(s, ps) == AppendAll(Append(s, ps[0]), ps[1..]);
    assert CheckPacket(Append(s, ps[0]), ps[1..][0]) == TimestampTooLow;
  }

  /** How many packets at the front of the batch pass their checks. */
  function NumGood(s: Stream, ps: seq<Packet>): nat
    requires !s.packetType.SameAs?
    decreases |ps|
  {
    if ps == [] || CheckPacket(s, ps[0]) != OK then 0 else 1 + NumGood(Append(s, ps[0]), ps[1..])
  }

  lemma {:induction false} GoodPacketsStay(s: Stream, ps: seq<Packet>)
    requires !s.packetType.SameAs?
    ensures |AppendAll(s, ps).1.queue| == |s.queue| + NumGood(s, ps)
    ensures AppendAll(s, ps).1.maxQueueSize == s.maxQueueSize
    ensures AppendAll(s, ps).0 == OK <==> NumGood(s, ps) == |ps|
    decreases |ps|
  {
    if ps != [] && CheckPacket(s, ps[0]) == OK {
      GoodPacketsStay(Append(s, ps[0]), ps[1..]);
    }
  }

  /** A failed call never reports "became full", yet it has filled the stream exactly here. */
  lemma FailedAddFillsQueue(s: Stream, ps: seq<Packet>)
    requires !s.packetType.SameAs? && AddPackets(s, ps).status != OK
    ensures !AddPackets(s, ps).becameFull
    ensures IsFull(AddPackets(s, ps).stream) != IsFull(s) <==> |s.queue| < s.maxQueueSize <= |s.queue| + NumGood(s, ps)
  {
    GoodPacketsStay(s, ps);
  }

  /** A successful call reports "became full" exactly when fullness has changed to true. */
  lemma AddReportsFullness(s: Stream, ps: seq<Packet>)
    requires !s.packetType.SameAs? && AddPackets(s, ps).status == OK
    ensures AddPackets(s, ps).becameFull <==> IsFull(AddPackets(s, ps).stream) != IsFull(s)
    ensures !s.closed ==> (AddPackets(s, ps).becameFull <==> |s.queue| < s.maxQueueSize <= |s.queue| + |ps|)
  {
    GoodPacketsStay(s, ps);
  }

  /** A pop reports "became not full" exactly when fullness has changed to false. */
  lemma PopReportsFullness(s: Stream, t: Timestamp)
    ensures PopAt(s, t).becameNotFull <==> IsFull(PopAt(s, t).stream) != IsFull(s)
  {
  }
}
