/**
 Stream timestamps: 64-bit integers with reserved values at both ends of the range.

 `Int64` is a bounded integer type, so every arithmetic step written with it carries
 the obligation that it does not overflow.
 */
module Timestamps {

  newtype Int64 = x: int | -0x8000_0000_0000_0000 <= x < 0x8000_0000_0000_0000

  type Timestamp = Int64

  const UNSET: Timestamp := -0x8000_0000_0000_0000
  const UNSTARTED: Timestamp := UNSET + 1
  const PRE_STREAM: Timestamp := UNSET + 2
  const MIN: Timestamp := UNSET + 3
  const MAX: Timestamp := 0x7fff_ffff_ffff_ffff - 3
  const POST_STREAM: Timestamp := 0x7fff_ffff_ffff_ffff - 2
  const ONE_OVER_POST_STREAM: Timestamp := 0x7fff_ffff_ffff_ffff - 1
  const DONE: Timestamp := 0x7fff_ffff_ffff_ffff

  /** Any number of packets may carry these timestamps. */
  predicate IsRangeValue(t: Timestamp) {
    MIN <= t <= MAX
  }

  /** The timestamps a packet in a stream may carry. */
  predicate IsAllowedInStream(t: Timestamp) {
    PRE_STREAM <= t <= POST_STREAM
  }

  predicate IsSpecialValue(t: Timestamp) {
    t <= MIN || MAX <= t
  }

  function MinOf(a: Timestamp, b: Timestamp): Timestamp {
    if b < a then b else a
  }

  function MaxOf(a: Timestamp, b: Timestamp): Timestamp {
    if a < b then b else a
  }

  /** The nearest integer of [Min, Max]. */
  function ClampToRange(x: int): (r: Timestamp)
    ensures IsRangeValue(r)
    ensures MIN as int <= x <= MAX as int ==> r as int == x
  {
    if x <= MIN as int then MIN else if MAX as int <= x then MAX else x as Timestamp
  }

  /** A timestamp built from a raw value; the constructor refuses special values. */
  function FromValue(v: Int64): (r: Timestamp)
    requires !IsSpecialValue(v)
    ensures IsRangeValue(r) && r == v
  {
    v
  }

  /** Addition of an offset: the mathematical sum, clamped, with no step that overflows. */
  function Add(t: Timestamp, offset: Int64): (r: Timestamp)
    requires IsRangeValue(t)
    ensures r == ClampToRange(t as int + offset as int)
  {
    if offset >= 0 && t >= MAX - offset then MAX
    else if offset <= 0 && t <= MIN - offset then MIN
    else FromValue(t + offset)
  }

  /** Subtraction of an offset negates it first, which the smallest 64-bit value does not survive. */
  function Subtract(t: Timestamp, offset: Int64): (r: Timestamp)
    requires IsRangeValue(t) && offset != UNSET
    ensures r == ClampToRange(t as int - offset as int)
  {
    Add(t, -offset)
  }

  predicate IsNegation(x: Int64, offset: Int64) {
    x as int == -(offset as int)
  }

  /** Exactly one 64-bit value, the one excluded above, has no 64-bit negation. */
  lemma OnlyUnsetHasNoNegation(offset: Int64)
    ensures (exists x :: IsNegation(x, offset)) <==> offset != UNSET
  {
    if offset != UNSET {
      assert IsNegation(-offset, offset);
    }
  }

  function NextAllowedInStream(t: Timestamp): (r: Timestamp)
    ensures t <= POST_STREAM ==> t < r
    ensures MIN <= r <= ONE_OVER_POST_STREAM && r != POST_STREAM
  {
    if t >= MAX || t == PRE_STREAM then ONE_OVER_POST_STREAM
    else if t < MIN then MIN
    else Add(t, 1)
  }

  function PreviousAllowedInStream(t: Timestamp): (r: Timestamp)
    ensures UNSTARTED <= r <= MAX && r != PRE_STREAM
    ensures UNSTARTED < r ==> r < t
  {
    if t <= MIN || t == POST_STREAM then UNSTARTED
    else if t > MAX then MAX
    else Subtract(t, 1)
  }

  /** Whether one stream may carry a packet at `p` and, later, a packet at `q`. */
  predicate MayFollow(p: Timestamp, q: Timestamp) {
    IsRangeValue(p) && IsRangeValue(q) && p < q
  }

  /**
   The bound left behind by a packet at `p` separates the timestamps that may follow it
   from those that may not, except that it says nothing about PostStream.
   */
  lemma NextSeparatesFollowers(p: Timestamp, q: Timestamp)
    requires IsAllowedInStream(p) && IsAllowedInStream(q)
    ensures MayFollow(p, q) <==> NextAllowedInStream(p) <= q && q != POST_STREAM
  {
    if IsRangeValue(p) && p < MAX {
      assert NextAllowedInStream(p) == p + 1;
    }
  }

  /** On the range, Next and Previous undo one another, the two ends included. */
  lemma NextAndPreviousAreInverse(t: Timestamp)
    requires IsRangeValue(t)
    ensures PreviousAllowedInStream(NextAllowedInStream(t)) == t
    ensures NextAllowedInStream(PreviousAllowedInStream(t)) == t
  {
    if t < MAX {
      assert NextAllowedInStream(t) == t + 1;
    }
    if MIN < t {
      assert PreviousAllowedInStream(t) == t - 1;
    }
  }

  /** Adding a fixed offset keeps the order, clamping included. */
  lemma AddIsMonotone(a: Timestamp, b: Timestamp, offset: Int64)
    requires IsRangeValue(a) && IsRangeValue(b) && a <= b
    ensures Add(a, offset) <= Add(b, offset)
  {
    assert a as int + offset as int <= b as int + offset as int;
  }
}
