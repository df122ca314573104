/** Timestamps and timestamp differences, over int64 with eight reserved values.
    A CHECK that aborts the program appears as a precondition; a subset type
    on an intermediate value is the claim that it does not overflow. */
module Timestamps {
  import opened Results

  const INT64_MIN: int := -0x8000_0000_0000_0000
  const INT64_MAX: int := 0x7FFF_FFFF_FFFF_FFFF

  type int64 = x: int | INT64_MIN <= x <= INT64_MAX
  type Timestamp = t: int | INT64_MIN <= t <= INT64_MAX

  const UNSET: Timestamp := INT64_MIN
  const UNSTARTED: Timestamp := INT64_MIN + 1
  const PRE_STREAM: Timestamp := INT64_MIN + 2
  const MIN: Timestamp := INT64_MIN + 3
  const MAX: Timestamp := INT64_MAX - 3
  const POST_STREAM: Timestamp := INT64_MAX - 2
  const ONE_OVER_POST_STREAM: Timestamp := INT64_MAX - 1
  const DONE: Timestamp := INT64_MAX

  predicate IsSpecialValue(t: Timestamp) {
    t <= MIN || t >= MAX
  }

  predicate IsRangeValue(t: Timestamp) {
    MIN <= t <= MAX
  }

  predicate IsAllowedInStream(t: Timestamp) {
    PRE_STREAM <= t <= POST_STREAM
  }

  /** The explicit constructor: it CHECKs that no special value is built directly. */
  function FromInt64(value: int64): Timestamp
    requires !IsSpecialValue(value)
  {
    value
  }

  function Min(a: Timestamp, b: Timestamp): Timestamp {
    if a < b then a else b
  }

  function Max(a: Timestamp, b: Timestamp): Timestamp {
    if a < b then b else a
  }

  function Clamp(value: int): Timestamp {
    if value < MIN then MIN else if value > MAX then MAX else value
  }

  /** Addition of an offset: the clamp is decided before the sum is formed, so
      no intermediate value leaves int64 and the constructor never aborts. */
  function Plus(t: Timestamp, offset: int64): (r: Timestamp)
    requires IsRangeValue(t)
    ensures r == Clamp(t + offset)
    ensures IsRangeValue(r)
  {
    if offset >= 0 && (var highest: int64 := MAX - offset; t >= highest) then MAX
    else if offset <= 0 && (var lowest: int64 := MIN - offset; t <= lowest) then MIN
    else FromInt64(t + offset)
  }

  /** Subtraction negates the offset first, which aborts (None) on the least int64. */
  function Minus(t: Timestamp, offset: int64): (r: Option<Timestamp>)
    requires IsRangeValue(t)
    ensures r == if offset == INT64_MIN then None else Some(Clamp(t - offset))
  {
    if offset == INT64_MIN then None else Some(Plus(t, -offset))
  }

  /** Whether a packet at `u` may come after a packet at `t` on one stream: range
      values increase, and PreStream and PostStream packets stand alone. */
  predicate MayFollow(t: Timestamp, u: Timestamp) {
    && IsAllowedInStream(u)
    && t < u
    && t != PRE_STREAM
    && u != POST_STREAM
  }

  function NextAllowedInStream(t: Timestamp): (r: Timestamp)
    ensures IsAllowedInStream(t) ==> t < r
  {
    if t >= MAX || t == PRE_STREAM then ONE_OVER_POST_STREAM
    else if t < MIN then MIN
    else Plus(t, 1)
  }

  function PreviousAllowedInStream(t: Timestamp): (r: Timestamp)
    ensures t >= PRE_STREAM ==> r < t
  {
    if t <= MIN || t == POST_STREAM then UNSTARTED
    else if t > MAX then MAX
    else Plus(t, -1)
  }

  /** Next is the least range value that may follow `t`, or OneOverPostStream if
      there is none; Previous is the greatest range value before `t` on a stream
      that may go on to `t`, or Unstarted if there is none. */
  lemma NextAndPreviousAreExtremal(t: Timestamp, u: Timestamp)
    ensures var next := NextAllowedInStream(t);
            if IsRangeValue(next) then MayFollow(t, next) && (IsRangeValue(u) && MayFollow(t, u) ==> next <= u)
            else next == ONE_OVER_POST_STREAM && !(IsRangeValue(u) && MayFollow(t, u))
    ensures var previous := PreviousAllowedInStream(t);
            if IsRangeValue(previous) then previous < t != POST_STREAM && (IsRangeValue(u) && u < t ==> u <= previous)
            else previous == UNSTARTED && !(IsRangeValue(u) && u < t != POST_STREAM)
  {
  }

  /** Next also answers for timestamps that are not allowed in a stream: there is no
      CHECK of its argument. */
  lemma NextTakesAnyTimestamp(t: Timestamp)
    requires !IsAllowedInStream(t)
    ensures NextAllowedInStream(t) == if t < PRE_STREAM then MIN else ONE_OVER_POST_STREAM
  {
  }

  /** Next is monotone except from PreStream, which closes the stream at once. */
  lemma NextIsMonotoneExceptAtPreStream(t: Timestamp, u: Timestamp)
    requires t <= u
    ensures NextAllowedInStream(t) <= NextAllowedInStream(u) <==> !(t == PRE_STREAM && MIN <= u < MAX)
  {
  }

  /** Previous is monotone except at PostStream, which nothing may precede. */
  lemma PreviousIsMonotoneExceptAtPostStream(t: Timestamp, u: Timestamp)
    requires t <= u
    ensures PreviousAllowedInStream(t) <= PreviousAllowedInStream(u) <==> !(u == POST_STREAM && MIN < t <= MAX)
  {
  }

  /** Exactly where stepping forward and then back, or back and then forward, returns. */
  lemma NextAndPreviousAreInverse(t: Timestamp)
    ensures PreviousAllowedInStream(NextAllowedInStream(t)) == t <==> IsRangeValue(t) || t == UNSTARTED
    ensures NextAllowedInStream(PreviousAllowedInStream(t)) == t <==> IsRangeValue(t) || t == ONE_OVER_POST_STREAM
  {
  }
}
