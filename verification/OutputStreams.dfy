/** Output streams: what a calculator adds to a shard, the timestamp bound that follows,
    and its propagation to the mirrors, which are input streams of other nodes. */
module OutputStreams {
  import opened Results
  import opened Timestamps
  import opened InputStreams

  // ----- A shard -----

  datatype ShardState = ShardState(queue: seq<Packet>, bound: Timestamp, updated: Timestamp, closed: bool)

  function Reset(bound: Timestamp, closed: bool): ShardState {
    ShardState([], bound, UNSET, closed)
  }

  function BoundSet(s: ShardState, bound: Timestamp): (ShardState, Status) {
    if !IsAllowedInStream(bound) && bound != ONE_OVER_POST_STREAM then (s, Error)
    else (s.(bound := bound, updated := bound), Ok)
  }

  /** An empty packet only sets the bound. */
  function Added(packetType: PacketType, s: ShardState, slot: Slot): (ShardState, Status) {
    if s.closed then (s, Error)
    else match slot
      case Missing(t) => (BoundSet(s, NextAllowedInStream(t)).0, Ok)
      case Present(p) =>
        if !IsAllowedInStream(p.timestamp) || !Validate(packetType, p) then (s, Error)
        else
          var bound := NextAllowedInStream(p.timestamp);
          (s.(queue := s.queue + [p], bound := bound, updated := bound), Ok)
  }

  function ShardClosed(s: ShardState): ShardState {
    s.(bound := DONE, updated := DONE, closed := true)
  }

  class OutputStreamShard {
    const packetType: PacketType
    var outputQueue: seq<Packet>
    var nextTimestampBound: Timestamp
    var updatedNextTimestampBound: Timestamp
    var closed: bool

    ghost function State(): ShardState
      reads this
    {
      ShardState(outputQueue, nextTimestampBound, updatedNextTimestampBound, closed)
    }

    method ResetTo(bound: Timestamp, close: bool)
      modifies this
      ensures State() == Reset(bound, close)
    {
      outputQueue, nextTimestampBound, updatedNextTimestampBound, closed := [], bound, UNSET, close;
    }

    method SetNextTimestampBound(bound: Timestamp) returns (status: Status)
      modifies this
      ensures (State(), status) == BoundSet(old(State()), bound)
    {
      if !IsAllowedInStream(bound) && bound != ONE_OVER_POST_STREAM {
        return Error;
      }
      nextTimestampBound := bound;
      updatedNextTimestampBound := nextTimestampBound;
      return Ok;
    }

    method Close()
      modifies this
      ensures State() == ShardClosed(old(State()))
    {
      closed, nextTimestampBound, updatedNextTimestampBound := true, DONE, DONE;
    }

    method AddPacket(slot: Slot) returns (status: Status)
      modifies this
      ensures (State(), status) == Added(packetType, old(State()), slot)
    {
      if closed {
        return Error;
      }
      match slot {
        case Missing(t) =>
          var ignored := SetNextTimestampBound(NextAllowedInStream(t));
          return Ok;
        case Present(p) =>
          if !IsAllowedInStream(p.timestamp) || !Validate(packetType, p) {
            return Error;
          }
          outputQueue := outputQueue + [p];
          nextTimestampBound := NextAllowedInStream(p.timestamp);
          updatedNextTimestampBound := nextTimestampBound;
          return Ok;
      }
    }
  }

  // ----- The output timestamp bound -----

  /** The offset a calculator may declare between its input and output timestamps. */
  type Offset = Option<int64>

  /** The bound that follows from the input timestamp alone. */
  function InputBound(offset: Offset, t: Timestamp): Timestamp
    requires IsAllowedInStream(t) || t == UNSTARTED
  {
    if offset.None? || t == UNSTARTED then UNSET
    else if t == PRE_STREAM then MIN
    else if t == MAX then
      if offset.value >= 0 then POST_STREAM else NextAllowedInStream(Plus(t, offset.value))
    else if t == POST_STREAM then ONE_OVER_POST_STREAM
    else Plus(NextAllowedInStream(t), offset.value)
  }

  function Latest(queue: seq<Packet>): Timestamp {
    if queue == [] then UNSET else NextAllowedInStream(queue[|queue| - 1].timestamp)
  }

  function ComputeOutputTimestampBound(offset: Offset, s: ShardState, t: Timestamp): Timestamp {
    if t != UNSTARTED && !IsAllowedInStream(t) then UNSET
    else
      var inputBound := InputBound(offset, t);
      var fromInput := if inputBound > s.bound then Max(UNSET, inputBound) else UNSET;
      var fromShard := Max(fromInput, s.updated);
      if s.queue == [] then fromShard else Max(fromShard, Latest(s.queue))
  }

  /** With an offset declared, the bound after input `t` never exceeds what a later input
      may output, and passes what `t` itself could output. */
  lemma OffsetBoundIsSound(offset: int64, t: Timestamp, later: Timestamp)
    requires IsRangeValue(t)
    ensures IsRangeValue(later) && t < later ==> InputBound(Some(offset), t) <= Plus(later, offset)
    ensures MIN <= t + offset < MAX ==> InputBound(Some(offset), t) > t + offset
    ensures PRE_STREAM < InputBound(Some(offset), t) <= POST_STREAM
  {
  }

  /** The summary timestamps: after PreStream the whole range is still to come, after
      PostStream nothing is. */
  lemma OffsetBoundOfSummaries(offset: int64, later: Timestamp)
    ensures IsRangeValue(later) ==> PRE_STREAM < InputBound(Some(offset), PRE_STREAM) <= Plus(later, offset)
    ensures InputBound(Some(offset), POST_STREAM) > POST_STREAM
    ensures offset >= 0 ==> InputBound(Some(offset), MAX) == POST_STREAM
    ensures MIN <= MAX + offset < MAX ==> InputBound(Some(offset), MAX) == MAX + offset + 1
  {
  }

  // ----- What a calculator does in one invocation -----

  datatype ShardOp = Add(slot: Slot) | SetBound(bound: Timestamp) | Close

  function Done(packetType: PacketType, s: ShardState, op: ShardOp): ShardState {
    match op
    case Add(slot) => Added(packetType, s, slot).0
    case SetBound(bound) => BoundSet(s, bound).0
    case Close => ShardClosed(s)
  }

  function AllDone(packetType: PacketType, s: ShardState, ops: seq<ShardOp>): ShardState {
    if ops == [] then s else Done(packetType, AllDone(packetType, s, ops[..|ops| - 1]), ops[|ops| - 1])
  }

  predicate HasClose(ops: seq<ShardOp>) {
    exists k :: 0 <= k < |ops| && ops[k].Close?
  }

  /** The packets that a calculator outputs: those it adds before it closes the stream,
      if a stream may hold them and they have its type. */
  function Outputs(packetType: PacketType, ops: seq<ShardOp>): seq<Packet> {
    if ops == [] then []
    else
      var before, op := ops[..|ops| - 1], ops[|ops| - 1];
      if !HasClose(before) && op.Add? && op.slot.Present? && IsAllowedInStream(op.slot.packet.timestamp)
         && Validate(packetType, op.slot.packet)
      then Outputs(packetType, before) + [op.slot.packet]
      else Outputs(packetType, before)
  }

  lemma HasCloseAfter(before: seq<ShardOp>, op: ShardOp)
    ensures HasClose(before + [op]) <==> HasClose(before) || op.Close?
  {
    assert (before + [op])[|before|] == op;
    if HasClose(before) {
      var k :| 0 <= k < |before| && before[k].Close?;
      assert (before + [op])[k].Close?;
    }
  }

  /** Exactly these packets are queued, in their order. */
  lemma {:induction false} QueueIsOutputs(packetType: PacketType, start: Timestamp, closed: bool, ops: seq<ShardOp>)
    ensures var s := AllDone(packetType, Reset(start, closed), ops);
            && s.queue == (if closed then [] else Outputs(packetType, ops))
            && (s.closed <==> closed || HasClose(ops))
  {
    if ops != [] {
      var before, op := ops[..|ops| - 1], ops[|ops| - 1];
      assert ops == before + [op];
      QueueIsOutputs(packetType, start, closed, before);
      HasCloseAfter(before, op);
    }
  }

  /** AddPacket answers Ok exactly if the stream is open, and the packet is empty or may be
      in the stream and has its type; else it changes nothing. */
  lemma AddingAnswers(packetType: PacketType, s: ShardState, slot: Slot)
    ensures Added(packetType, s, slot).1 == Ok <==>
            !s.closed
            && (slot.Missing?
                || (PRE_STREAM <= slot.packet.timestamp <= POST_STREAM && Validate(packetType, slot.packet)))
    ensures Added(packetType, s, slot).1 == Error ==> Added(packetType, s, slot).0 == s
  {
  }

  /** What is added at a timestamp that a stream may hold, packet or not, bounds the stream
      just past it; an empty packet at any other sets the bound only if it is a legal one. */
  lemma AddingBounds(packetType: PacketType, s: ShardState, slot: Slot)
    requires Added(packetType, s, slot).1 == Ok
    ensures var r := Added(packetType, s, slot).0;
            var t := if slot.Missing? then slot.settled else slot.packet.timestamp;
            && (IsAllowedInStream(t) ==> r.bound == r.updated == NextAllowedInStream(t))
            && (!IsAllowedInStream(t) ==>
                  if NextAllowedInStream(t) <= ONE_OVER_POST_STREAM then r.bound == r.updated == NextAllowedInStream(t)
                  else r == s)
            && r.queue == s.queue + if slot.Missing? then [] else [slot.packet]
  {
  }

  /** SetNextTimestampBound takes every bound from PreStream to OneOverPostStream, and
      rejects all others. */
  lemma SettingBoundAnswers(s: ShardState, bound: Timestamp)
    ensures if PRE_STREAM <= bound <= ONE_OVER_POST_STREAM
            then BoundSet(s, bound) == (ShardState(s.queue, bound, bound, s.closed), Ok)
            else BoundSet(s, bound) == (s, Error)
  {
  }

  /** The operation does not lower the bound: a packet is not before it. */
  predicate DoesNotLower(packetType: PacketType, s: ShardState, op: ShardOp) {
    && s.bound <= Done(packetType, s, op).bound
    && (op.Add? && op.slot.Present? && !s.closed ==> s.bound <= op.slot.packet.timestamp)
  }

  predicate NeverLowers(packetType: PacketType, s: ShardState, ops: seq<ShardOp>) {
    forall n :: 0 <= n < |ops| ==> DoesNotLower(packetType, AllDone(packetType, s, ops[..n]), ops[n])
  }

  /** What a shard knows while its bound is never lowered: whether anything happened,
      and that each packet may come after the one before it, from the bound at the start on. */
  ghost predicate ShardInv(s: ShardState, start: Timestamp) {
    && start <= s.bound
    && (s.updated == s.bound || (s.updated == UNSET && s.queue == [] && s.bound == start))
    && (forall k :: 0 < k < |s.queue| ==> NextAllowedInStream(s.queue[k - 1].timestamp) <= s.queue[k].timestamp)
    && (forall k :: 0 <= k < |s.queue| ==> start <= s.queue[k].timestamp && IsAllowedInStream(s.queue[k].timestamp))
    && (s.queue != [] ==> Latest(s.queue) <= s.bound)
  }

  lemma {:induction false} AllDoneKeepsInv(packetType: PacketType, start: Timestamp, closed: bool, ops: seq<ShardOp>)
    requires NeverLowers(packetType, Reset(start, closed), ops)
    ensures ShardInv(AllDone(packetType, Reset(start, closed), ops), start)
  {
    if ops != [] {
      var before, op := ops[..|ops| - 1], ops[|ops| - 1];
      LastNeverLowers(packetType, Reset(start, closed), ops);
      AllDoneKeepsInv(packetType, start, closed, before);
      DoneKeepsInv(packetType, AllDone(packetType, Reset(start, closed), before), start, op);
    }
  }

  lemma DoneKeepsInv(packetType: PacketType, s: ShardState, start: Timestamp, op: ShardOp)
    requires ShardInv(s, start) && DoesNotLower(packetType, s, op)
    ensures ShardInv(Done(packetType, s, op), start)
  {
    if op.Add? && op.slot.Present? && Added(packetType, s, op.slot).1 == Ok {
      PacketKeepsInv(s, start, op.slot.packet);
    }
  }

  lemma PacketKeepsInv(s: ShardState, start: Timestamp, p: Packet)
    requires ShardInv(s, start) && IsAllowedInStream(p.timestamp) && s.bound <= p.timestamp
    ensures var bound := NextAllowedInStream(p.timestamp);
            ShardInv(s.(queue := s.queue + [p], bound := bound, updated := bound), start)
  {
  }

  /** The computed bound, for such a calculator: the input's bound if it is beyond the
      shard's, else the shard's if anything happened; it never goes back. */
  lemma OutputBoundIsExact(packetType: PacketType, offset: Offset, start: Timestamp, closed: bool, ops: seq<ShardOp>,
          t: Timestamp)
    requires IsAllowedInStream(t) || t == UNSTARTED
    requires NeverLowers(packetType, Reset(start, closed), ops)
    ensures var s := AllDone(packetType, Reset(start, closed), ops);
            var bound := ComputeOutputTimestampBound(offset, s, t);
            && bound == (if InputBound(offset, t) > s.bound then InputBound(offset, t) else s.updated)
            && (bound == UNSET || start <= bound)
            && (s.queue != [] ==> Latest(s.queue) <= bound)
  {
    AllDoneKeepsInv(packetType, start, closed, ops);
  }

  /** Whatever the calculator does, the computed bound is the latest of: what it set last,
      what follows its last packet, and what follows the input if that is new. */
  lemma ComputedBoundIsLatest(offset: Offset, s: ShardState, t: Timestamp)
    requires IsAllowedInStream(t) || t == UNSTARTED
    ensures var bound := ComputeOutputTimestampBound(offset, s, t);
            && s.updated <= bound && (s.queue != [] ==> Latest(s.queue) <= bound)
            && (InputBound(offset, t) > s.bound ==> InputBound(offset, t) <= bound)
            && (|| bound == UNSET || bound == s.updated || (s.queue != [] && bound == Latest(s.queue))
                || (InputBound(offset, t) > s.bound && bound == InputBound(offset, t)))
  {
  }

  /** Without an offset the input has no say in the output bound. */
  lemma NoOffsetGivesNoBound(s: ShardState, t: Timestamp, start: Timestamp, closed: bool, inputBound: Timestamp)
    ensures IsAllowedInStream(t) ==>
              ComputeOutputTimestampBound(None, s, t) == ComputeOutputTimestampBound(None, s, UNSTARTED)
    ensures ComputeOutputTimestampBound(None, Reset(start, closed), t) == UNSET
    ensures BoundAfterInput(None, closed, start, inputBound) == start
  {
  }

  /** Once the calculator has closed the stream, the bound is Done. */
  lemma {:induction false} ClosedBoundIsDone(packetType: PacketType, start: Timestamp, ops: seq<ShardOp>)
    requires NeverLowers(packetType, Reset(start, false), ops) && HasClose(ops)
    ensures var s := AllDone(packetType, Reset(start, false), ops); s.bound == s.updated == DONE
  {
    var before, op := ops[..|ops| - 1], ops[|ops| - 1];
    assert ops == before + [op];
    hide NeverLowers, DoesNotLower, Done, HasClose, Outputs;
    HasCloseAfter(before, op);
    LastNeverLowers(packetType, Reset(start, false), ops);
    QueueIsOutputs(packetType, start, false, before);
    if !op.Close? {
      ClosedBoundIsDone(packetType, start, before);
    }
    DoneBoundStays(packetType, AllDone(packetType, Reset(start, false), before), op);
  }

  lemma LastNeverLowers(packetType: PacketType, s: ShardState, ops: seq<ShardOp>)
    requires ops != [] && NeverLowers(packetType, s, ops)
    ensures var before := ops[..|ops| - 1];
            && NeverLowers(packetType, s, before)
            && DoesNotLower(packetType, AllDone(packetType, s, before), ops[|ops| - 1])
  {
    hide DoesNotLower;
    var before := ops[..|ops| - 1];
    assert forall n :: 0 <= n < |before| ==> before[..n] == ops[..n] && before[n] == ops[n];
  }

  lemma DoneBoundStays(packetType: PacketType, s: ShardState, op: ShardOp)
    requires op.Close? || (s.closed && s.bound == s.updated == DONE && DoesNotLower(packetType, s, op))
    ensures var r := Done(packetType, s, op); r.bound == r.updated == DONE
  {
  }

  // ----- Propagation -----

  /** What one mirror becomes. The bound is set only if the packets do not imply it. */
  function Propagated(packetType: PacketType, s: StreamState, packets: seq<Packet>, bound: Timestamp): StreamState {
    var r := if packets == [] then s else Adding(packetType, s, packets).state;
    if bound != UNSET && (packets == [] || Latest(packets) != bound) then SettingBound(r, bound).state else r
  }

  class OutputStreamManager {
    const mirrors: seq<InputStreamManager>
    const offset: Offset
    var nextTimestampBound: Timestamp
    var closed: bool

    ghost predicate Valid()
      reads this
    {
      forall i, j :: 0 <= i < j < |mirrors| ==> mirrors[i] != mirrors[j]
    }

    method PropagateUpdatesToMirrors(bound: Timestamp, shard: OutputStreamShard)
      requires Valid()
      modifies `nextTimestampBound, shard`outputQueue, mirrors
      ensures nextTimestampBound == if bound != UNSET then bound else old(nextTimestampBound)
      ensures shard.outputQueue == []
      ensures forall i :: 0 <= i < |mirrors| ==>
        mirrors[i].State() == Propagated(mirrors[i].packetType, old(mirrors[i].State()), old(shard.outputQueue), bound)
    {
      if bound != UNSET {
        nextTimestampBound := bound;
      }
      var packets := shard.outputQueue;
      var addPackets := packets != [];
      var setBound := bound != UNSET && (!addPackets || Latest(packets) != bound);
      for i := 0 to |mirrors|
        invariant i < |mirrors| ==> packets == old(shard.outputQueue)
        invariant nextTimestampBound == if bound != UNSET then bound else old(nextTimestampBound)
        invariant forall j :: 0 <= j < i ==>
          mirrors[j].State() ==
            Propagated(mirrors[j].packetType, old(mirrors[j].State()), old(shard.outputQueue), bound)
        invariant forall j :: i <= j < |mirrors| ==> mirrors[j].State() == old(mirrors[j].State())
      {
        if addPackets {
          var moved := packets;
          if i == |mirrors| - 1 {
            packets := [];
          }
          var status, notify, becameFull := mirrors[i].AddPackets(moved);
        }
        if setBound {
          var status, notify := mirrors[i].SetNextTimestampBound(bound);
        }
      }
      shard.outputQueue := [];
    }

    method Close()
      requires Valid()
      modifies `closed, `nextTimestampBound, mirrors
      ensures closed && nextTimestampBound == if old(closed) then old(nextTimestampBound) else DONE
      ensures forall i :: 0 <= i < |mirrors| ==>
        mirrors[i].State() == if old(closed) then old(mirrors[i].State())
                              else SettingBound(old(mirrors[i].State()), DONE).state
    {
      if closed {
        return;
      }
      closed, nextTimestampBound := true, DONE;
      for i := 0 to |mirrors|
        invariant closed && nextTimestampBound == DONE
        invariant forall j :: 0 <= j < |mirrors| ==>
          mirrors[j].State() == if j < i then SettingBound(old(mirrors[j].State()), DONE).state
                                else old(mirrors[j].State())
      {
        var status, notify := mirrors[i].SetNextTimestampBound(DONE);
      }
    }

    method ResetShard(shard: OutputStreamShard)
      modifies shard
      ensures shard.State() == Reset(nextTimestampBound, closed)
    {
      shard.ResetTo(nextTimestampBound, closed);
    }

    /** TryPropagateTimestampBound, for this stream. */
    method TryPropagateTimestampBound(inputBound: Timestamp, empty: OutputStreamShard)
      requires Valid() && empty.outputQueue == []
      modifies `nextTimestampBound, empty`outputQueue, mirrors
      ensures nextTimestampBound == BoundAfterInput(offset, closed, old(nextTimestampBound), inputBound)
      ensures forall i :: 0 <= i < |mirrors| ==>
        mirrors[i].State() == if nextTimestampBound > old(nextTimestampBound)
                              then SettingBound(old(mirrors[i].State()), nextTimestampBound).state
                                else old(mirrors[i].State())
    {
      if !IsRangeValue(inputBound) {
        return;
      }
      if offset.Some? && !closed && Plus(inputBound, offset.value) > nextTimestampBound {
        PropagateUpdatesToMirrors(Plus(inputBound, offset.value), empty);
      }
    }

    /** PropagateOutputPackets, for this stream. */
    method PropagateOutputPackets(t: Timestamp, shard: OutputStreamShard)
      requires Valid()
      modifies this, shard`outputQueue, mirrors
      ensures old(closed) ==> nextTimestampBound == old(nextTimestampBound) && closed
      ensures !old(closed) ==> closed == shard.closed
      ensures var bound := ComputeOutputTimestampBound(offset, old(shard.State()), t);
              !old(closed) ==>
              && nextTimestampBound ==
                 (if shard.closed then DONE else if bound != UNSET then bound else old(nextTimestampBound))
              && forall i :: 0 <= i < |mirrors| ==>
                   var r := Propagated(mirrors[i].packetType, old(mirrors[i].State()), old(shard.outputQueue), bound);
                   mirrors[i].State() == if shard.closed then SettingBound(r, DONE).state else r
    {
      if closed {
        return;
      }
      var bound := ComputeOutputTimestampBound(
        offset, ShardState(shard.outputQueue, shard.nextTimestampBound, shard.updatedNextTimestampBound, shard.closed),
          t);
      PropagateUpdatesToMirrors(bound, shard);
      if shard.closed {
        Close();
      }
    }
  }

  /** The bound once the inputs are known to be settled below `inputBound`. */
  function BoundAfterInput(offset: Offset, closed: bool, bound: Timestamp, inputBound: Timestamp): Timestamp {
    if IsRangeValue(inputBound) && offset.Some? && !closed then Max(bound, Plus(inputBound, offset.value)) else bound
  }

  /** Both ways to bound the output agree: from an input that was processed, and from
      inputs that are settled just past it. */
  lemma BoundsAgree(offset: int64, bound: Timestamp, t: Timestamp)
    requires MIN <= t < MAX
    ensures BoundAfterInput(Some(offset), false, bound, NextAllowedInStream(t)) ==
            Max(bound, InputBound(Some(offset), t))
  {
  }

  // ----- Propagation refines "append, then set the bound" -----

  /** Packets that a stream accepts together: each may follow the one before it. */
  ghost predicate Acceptable(packetType: PacketType, s: StreamState, packets: seq<Packet>) {
    && (forall k :: 0 <= k < |packets| ==> Validate(packetType, packets[k]))
    && (packets != [] ==>
          && IsAllowedInStream(packets[0].timestamp) && s.bound <= packets[0].timestamp
          && (packets[0].timestamp == POST_STREAM ==> s.numPacketsAdded == 0))
    && (forall k :: 0 < k < |packets| ==> MayFollow(packets[k - 1].timestamp, packets[k].timestamp))
  }

  /** An open stream accepts all packets of a call exactly if they are acceptable. */
  lemma AcceptedExactly(packetType: PacketType, s: StreamState, packets: seq<Packet>)
    requires !s.closed
    ensures Adding(packetType, s, packets).status == Ok <==> Acceptable(packetType, s, packets)
  {
    var n := Taken(packetType, s, packets);
    forall k | 0 <= k < |packets|
      ensures k <= n ==> (k < n <==> AcceptsNext(packetType, s, packets, k))
    {
      if k <= n {
        TakenIsLongestAccepted(packetType, s, packets, 0, k);
        AcceptsAfter(packetType, s, packets, k);
      }
    }
    hide Taken, Acceptable, AcceptsNext;
    if n == |packets| {
      AllAcceptable(packetType, s, packets);
    }
    if Acceptable(packetType, s, packets) && n < |packets| {
      AcceptableNext(packetType, s, packets, n);
    }
  }

  /** Whether packet `k` is accepted after those before it. */
  ghost predicate AcceptsNext(packetType: PacketType, s: StreamState, packets: seq<Packet>, k: nat)
    requires k < |packets|
  {
    && Validate(packetType, packets[k]) && IsAllowedInStream(packets[k].timestamp)
    && (packets[k].timestamp == POST_STREAM ==> s.numPacketsAdded + k == 0)
    && (if k == 0 then s.bound else NextAllowedInStream(packets[k - 1].timestamp)) <= packets[k].timestamp
  }

  lemma AcceptsAfter(packetType: PacketType, s: StreamState, packets: seq<Packet>, k: nat)
    requires k < |packets|
    ensures Accepts(packetType, AppendAll(s, packets[..k]), packets[k]) <==> AcceptsNext(packetType, s, packets, k)
  {
  }

  lemma AllAcceptable(packetType: PacketType, s: StreamState, packets: seq<Packet>)
    requires forall k :: 0 <= k < |packets| ==> AcceptsNext(packetType, s, packets, k)
    ensures Acceptable(packetType, s, packets)
  {
    forall k | 0 <= k < |packets|
      ensures Validate(packetType, packets[k]) && (k > 0 ==> MayFollow(packets[k - 1].timestamp, packets[k].timestamp))
    {
      assert AcceptsNext(packetType, s, packets, k) && (k > 0 ==> AcceptsNext(packetType, s, packets, k - 1));
    }
    assert packets != [] ==> AcceptsNext(packetType, s, packets, 0);
  }

  lemma AcceptableNext(packetType: PacketType, s: StreamState, packets: seq<Packet>, k: nat)
    requires Acceptable(packetType, s, packets) && k < |packets|
    ensures AcceptsNext(packetType, s, packets, k)
  {
    assert k > 0 ==> MayFollow(packets[k - 1].timestamp, packets[k].timestamp);
    assert k > 1 ==> MayFollow(packets[k - 2].timestamp, packets[k - 1].timestamp);
  }

  /** Leaving out a bound that the packets imply cannot be seen: the call would succeed,
      change nothing, and notify nobody. */
  lemma SkippedBoundIsUnobservable(packetType: PacketType, s: StreamState, packets: seq<Packet>, bound: Timestamp)
    requires Adding(packetType, s, packets).status == Ok
    ensures var r := Adding(packetType, s, packets).state;
            Propagated(packetType, s, packets, bound) == if bound == UNSET then r else SettingBound(r, bound).state
    ensures var r := Adding(packetType, s, packets).state;
            packets != [] && Latest(packets) == bound ==> SettingBound(r, bound) == Outcome(r, Ok, false, false)
  {
  }

  /** A mirror that was in step with its output stream, and whose packets may follow one
      another, has them all and is in step again, and no call to it fails. */
  lemma MirrorStaysInStep(packetType: PacketType, s: StreamState, packets: seq<Packet>, before: Timestamp,
          bound: Timestamp)
    requires s.closed || (s.bound == before && Acceptable(packetType, s, packets))
    requires bound == UNSET ==> packets == []
    requires bound != UNSET ==> before <= bound && (packets != [] ==> Latest(packets) <= bound)
    ensures Adding(packetType, s, packets).status == Ok
    ensures bound != UNSET ==> SettingBound(Adding(packetType, s, packets).state, bound).status == Ok
    ensures var r := Propagated(packetType, s, packets, bound);
            && r.closed == s.closed && (r.closed || r.bound == if bound == UNSET then before else bound)
            && (r.closed || r.numPacketsAdded == s.numPacketsAdded + |packets|)
            && r.queue == (if s.closed then s.queue else s.queue + packets)
  {
    if !s.closed {
      AcceptedExactly(packetType, s, packets);
    }
    hide Acceptable;
  }

  // ----- A run of one output stream -----

  /** An output stream, its mirrors, and the number of packets it has sent. */
  datatype Stream = Stream(bound: Timestamp, closed: bool, offset: Offset, packetType: PacketType,
                           mirrors: seq<StreamHistory>, mirrorTypes: seq<PacketType>, sent: nat)

  /** An invocation of the calculator, which fills a reset shard; a bound on the inputs;
      the closing of the node; and a mirror's consumer, popping where it is settled. */
  datatype Event =
    | Process(t: Timestamp, ops: seq<ShardOp>)
    | UpdateBound(inputBound: Timestamp)
    | CloseNode(ops: seq<ShardOp>)
    | Pop(i: nat, t: Timestamp)
    | CloseMirror(i: nat)

  function Shard(n: Stream, ops: seq<ShardOp>): ShardState {
    AllDone(n.packetType, Reset(n.bound, n.closed), ops)
  }

  /** The packets have the types of the open mirrors, and a PostStream packet is the
      first one ever sent. */
  ghost predicate Sendable(n: Stream, packets: seq<Packet>) {
    && |n.mirrors| == |n.mirrorTypes|
    && forall i :: 0 <= i < |n.mirrors| ==> SendableTo(n, n.mirrors[i].s, n.mirrorTypes[i], packets)
  }

  ghost predicate SendableTo(n: Stream, s: StreamState, packetType: PacketType, packets: seq<Packet>) {
    s.closed
    || forall k :: 0 <= k < |packets| ==>
         Validate(packetType, packets[k]) && (packets[k].timestamp == POST_STREAM ==> n.sent + k == 0)
  }

  /** What is asked of the calculator: it never lowers a bound, and sends what its
      mirrors have types for. Consumers pop where their stream is settled. */
  ghost predicate Possible(n: Stream, e: Event) {
    match e
    case Process(t, ops) =>
      && (IsAllowedInStream(t) || t == UNSTARTED)
      && NeverLowers(n.packetType, Reset(n.bound, n.closed), ops) && Sendable(n, Shard(n, ops).queue)
    case UpdateBound(_) => |n.mirrors| == |n.mirrorTypes|
    case CloseNode(ops) => NeverLowers(n.packetType, Reset(n.bound, n.closed), ops) && Sendable(n, Shard(n, ops).queue)
    case Pop(i, t) => i < |n.mirrors| == |n.mirrorTypes| && t < n.mirrors[i].s.bound
    case CloseMirror(i) => i < |n.mirrors| == |n.mirrorTypes|
  }

  /** One mirror with its history: what propagation makes of its state is `Propagated`. */
  function Received(packetType: PacketType, h: StreamHistory, packets: seq<Packet>, bound: Timestamp)
    : (r: StreamHistory)
    ensures r.s == Propagated(packetType, h.s, packets, bound)
  {
    var r := if packets == [] then h else Step(packetType, h, InputStreams.Add(packets));
    if bound != UNSET && (packets == [] || Latest(packets) != bound)
    then Step(packetType, r, InputStreams.SetBound(bound)) else r
  }

  function PropagatedAll(n: Stream, packets: seq<Packet>, bound: Timestamp): Stream
    requires |n.mirrors| == |n.mirrorTypes|
  {
    n.(bound := if bound == UNSET then n.bound else bound,
       sent := n.sent + |packets|,
       mirrors :=
         seq(|n.mirrors|, i requires 0 <= i < |n.mirrors| =>
           Received(n.mirrorTypes[i], n.mirrors[i], packets, bound)))
  }

  function Closed(n: Stream): Stream
    requires |n.mirrors| == |n.mirrorTypes|
  {
    if n.closed then n else PropagatedAll(n.(closed := true), [], DONE)
  }

  ghost function Next(n: Stream, e: Event): Stream
    requires Possible(n, e)
  {
    match e
    case Process(t, ops) =>
      var s := Shard(n, ops);
      if n.closed then n
      else
        var r := PropagatedAll(n, s.queue, ComputeOutputTimestampBound(n.offset, s, t));
        if s.closed then Closed(r) else r
    case UpdateBound(inputBound) =>
      var bound := BoundAfterInput(n.offset, n.closed, n.bound, inputBound);
      if bound > n.bound then PropagatedAll(n, [], bound) else n
    case CloseNode(ops) => Closed(PropagatedAll(n, Shard(n, ops).queue, DONE))
    case Pop(i, t) => n.(mirrors := n.mirrors[i := Step(n.mirrorTypes[i], n.mirrors[i], InputStreams.Pop(t))])
    case CloseMirror(i) => n.(mirrors := n.mirrors[i := Step(n.mirrorTypes[i], n.mirrors[i], InputStreams.Close)])
  }

  /** Every open mirror has the bound of the output stream, and all of its packets. */
  ghost predicate InStep(n: Stream) {
    && |n.mirrors| == |n.mirrorTypes| && PRE_STREAM <= n.bound
    && (n.closed ==> n.bound == DONE)
    && forall i :: 0 <= i < |n.mirrors| ==> MirrorInStep(n, n.mirrors[i].s)
  }

  predicate MirrorInStep(n: Stream, s: StreamState) {
    s.closed || (s.bound == n.bound && s.numPacketsAdded == n.sent)
  }

  function Start(offset: Offset, packetType: PacketType, mirrorTypes: seq<PacketType>, maxQueueSize: int): Stream {
    Stream(PRE_STREAM, false, offset, packetType,
           seq(|mirrorTypes|, _ => StreamHistory(Prepared(maxQueueSize), [], [])), mirrorTypes, 0)
  }

  /** A run starts in step. */
  lemma StartsInStep(offset: Offset, packetType: PacketType, mirrorTypes: seq<PacketType>, maxQueueSize: int)
    ensures InStep(Start(offset, packetType, mirrorTypes, maxQueueSize))
  {
  }

  /** A shard whose bound is never lowered holds packets that an open mirror in step
      accepts, exactly if they are sendable. */
  lemma ShardIsAcceptable(n: Stream, s: ShardState, i: nat)
    requires InStep(n) && ShardInv(s, n.bound) && i < |n.mirrors| && !n.mirrors[i].s.closed
    ensures Acceptable(n.mirrorTypes[i], n.mirrors[i].s, s.queue) <==>
            SendableTo(n, n.mirrors[i].s, n.mirrorTypes[i], s.queue)
  {
    var m, packetType, packets := n.mirrors[i].s, n.mirrorTypes[i], s.queue;
    assert MirrorInStep(n, m);
    if Acceptable(packetType, m, packets) {
      forall k | 0 <= k < |packets| && packets[k].timestamp == POST_STREAM ensures n.sent + k == 0 {
        assert k > 0 ==> MayFollow(packets[k - 1].timestamp, packets[k].timestamp);
      }
    }
    if SendableTo(n, m, packetType, packets) {
      forall k | 0 < k < |packets| ensures MayFollow(packets[k - 1].timestamp, packets[k].timestamp) {
        assert NextAllowedInStream(packets[k - 1].timestamp) <= packets[k].timestamp
               && packets[k].timestamp != POST_STREAM;
      }
    }
  }

  /** Every mirror accepts all packets of a call, exactly if they are sendable. */
  lemma AcceptedIffSendable(n: Stream, ops: seq<ShardOp>)
    requires InStep(n) && NeverLowers(n.packetType, Reset(n.bound, n.closed), ops)
    ensures (forall i :: 0 <= i < |n.mirrors| ==>
            Adding(n.mirrorTypes[i], n.mirrors[i].s, Shard(n, ops).queue).status == Ok)
            <==> Sendable(n, Shard(n, ops).queue)
  {
    AllDoneKeepsInv(n.packetType, n.bound, n.closed, ops);
    var queue := Shard(n, ops).queue;
    forall i | 0 <= i < |n.mirrors|
      ensures Adding(n.mirrorTypes[i], n.mirrors[i].s, queue).status == Ok <==>
              SendableTo(n, n.mirrors[i].s, n.mirrorTypes[i], queue)
    {
      if !n.mirrors[i].s.closed {
        AcceptedExactly(n.mirrorTypes[i], n.mirrors[i].s, queue);
        ShardIsAcceptable(n, Shard(n, ops), i);
      }
    }
  }

  /** No call that propagates these packets and this bound fails. */
  ghost predicate CallsSucceed(n: Stream, packets: seq<Packet>, bound: Timestamp) {
    && |n.mirrors| == |n.mirrorTypes|
    && forall i :: 0 <= i < |n.mirrors| ==>
         var o := Adding(n.mirrorTypes[i], n.mirrors[i].s, packets);
         o.status == Ok && (bound != UNSET ==> SettingBound(o.state, bound).status == Ok)
  }

  ghost predicate StepSucceeds(n: Stream, e: Event)
    requires Possible(n, e)
  {
    match e
    case Process(t, ops) =>
      n.closed || CallsSucceed(n, Shard(n, ops).queue, ComputeOutputTimestampBound(n.offset, Shard(n, ops), t))
    case UpdateBound(inputBound) =>
      var bound := BoundAfterInput(n.offset, n.closed, n.bound, inputBound);
      bound <= n.bound || CallsSucceed(n, [], bound)
    case CloseNode(ops) => CallsSucceed(n, Shard(n, ops).queue, DONE)
    case _ => true
  }

  lemma PropagatedAllInStep(n: Stream, packets: seq<Packet>, bound: Timestamp)
    requires InStep(n)
    requires forall i :: 0 <= i < |n.mirrors| && !n.mirrors[i].s.closed ==>
             Acceptable(n.mirrorTypes[i], n.mirrors[i].s, packets)
    requires bound == UNSET ==> packets == []
    requires bound != UNSET ==> n.bound <= bound && (packets != [] ==> Latest(packets) <= bound)
    ensures InStep(PropagatedAll(n, packets, bound)) && n.bound <= PropagatedAll(n, packets, bound).bound
    ensures CallsSucceed(n, packets, bound)
  {
    var r := PropagatedAll(n, packets, bound);
    forall i | 0 <= i < |n.mirrors|
      ensures MirrorInStep(r, r.mirrors[i].s)
      ensures var o := Adding(n.mirrorTypes[i], n.mirrors[i].s, packets);
              o.status == Ok && (bound != UNSET ==> SettingBound(o.state, bound).status == Ok)
    {
      assert MirrorInStep(n, n.mirrors[i].s);
      MirrorStaysInStep(n.mirrorTypes[i], n.mirrors[i].s, packets, n.bound, bound);
    }
  }

  /** The packets of a shard, propagated with a bound that covers them. */
  lemma ShardStaysInStep(n: Stream, ops: seq<ShardOp>, bound: Timestamp)
    requires InStep(n) && NeverLowers(n.packetType, Reset(n.bound, n.closed), ops) && Sendable(n, Shard(n, ops).queue)
    requires bound == UNSET ==> Shard(n, ops).queue == []
    requires bound != UNSET ==> n.bound <= bound && (Shard(n, ops).queue != [] ==> Latest(Shard(n, ops).queue) <= bound)
    ensures var packets := Shard(n, ops).queue;
            && InStep(PropagatedAll(n, packets, bound)) && n.bound <= PropagatedAll(n, packets, bound).bound
            && CallsSucceed(n, packets, bound)
  {
    AllDoneKeepsInv(n.packetType, n.bound, n.closed, ops);
    var packets := Shard(n, ops).queue;
    forall i | 0 <= i < |n.mirrors| && !n.mirrors[i].s.closed
      ensures Acceptable(n.mirrorTypes[i], n.mirrors[i].s, packets)
    {
      ShardIsAcceptable(n, Shard(n, ops), i);
    }
    PropagatedAllInStep(n, packets, bound);
  }

  lemma NextStaysInStep(n: Stream, e: Event)
    requires InStep(n) && Possible(n, e)
    ensures InStep(Next(n, e)) && n.bound <= Next(n, e).bound && StepSucceeds(n, e)
  {
    match e
    case Process(t, ops) =>
      OutputBoundIsExact(n.packetType, n.offset, n.bound, n.closed, ops, t);
      var s := Shard(n, ops);
      var bound := ComputeOutputTimestampBound(n.offset, s, t);
      ShardStaysInStep(n, ops, bound);
      ClosedStaysInStep(PropagatedAll(n, s.queue, bound));
    case UpdateBound(inputBound) =>
      var bound := BoundAfterInput(n.offset, n.closed, n.bound, inputBound);
      PropagatedAllInStep(n, [], bound);
    case CloseNode(ops) =>
      ShardStaysInStep(n, ops, DONE);
      ClosedStaysInStep(PropagatedAll(n, Shard(n, ops).queue, DONE));
    case Pop(i, _) => assert MirrorInStep(n, n.mirrors[i].s);
    case CloseMirror(_) =>
  }

  lemma ClosedStaysInStep(n: Stream)
    requires InStep(n)
    ensures InStep(Closed(n)) && n.bound <= Closed(n).bound
  {
    if !n.closed {
      PropagatedAllInStep(n, [], DONE);
      var r := Closed(n);
      forall i | 0 <= i < |r.mirrors| ensures MirrorInStep(r, r.mirrors[i].s) {
        assert MirrorInStep(PropagatedAll(n, [], DONE), PropagatedAll(n, [], DONE).mirrors[i].s);
      }
    }
  }

  ghost predicate CanRun(n: Stream, events: seq<Event>)
    decreases |events|
  {
    events == [] || (Possible(n, events[0]) && CanRun(Next(n, events[0]), events[1..]))
  }

  ghost function Run(n: Stream, events: seq<Event>): Stream
    requires CanRun(n, events)
    decreases |events|
  {
    if events == [] then n else Run(Next(n, events[0]), events[1..])
  }

  ghost predicate RunSucceeds(n: Stream, events: seq<Event>)
    requires CanRun(n, events)
    decreases |events|
  {
    events == [] || (StepSucceeds(n, events[0]) && RunSucceeds(Next(n, events[0]), events[1..]))
  }

  /** Over a run in which the calculator never lowers its bound, no mirror ever rejects
      a packet or a bound, the output bound never goes back, and every open mirror has
      that bound and all packets. */
  lemma {:induction false} MirrorsStayInStep(n: Stream, events: seq<Event>)
    requires InStep(n) && CanRun(n, events)
    ensures RunSucceeds(n, events) && InStep(Run(n, events)) && n.bound <= Run(n, events).bound
    decreases |events|
  {
    hide StepSucceeds, Possible, Next, InStep;
    if events != [] {
      NextStaysInStep(n, events[0]);
      MirrorsStayInStep(Next(n, events[0]), events[1..]);
    }
  }

  // ----- What mirrors are given -----

  /** The stream is closed by the calculator, or with its node. */
  predicate Ends(e: Event) {
    e.CloseNode? || (e.Process? && HasClose(e.ops))
  }

  function StepOutputs(packetType: PacketType, e: Event): seq<Packet> {
    if e.Process? || e.CloseNode? then Outputs(packetType, e.ops) else []
  }

  /** What the calculator outputs over all invocations, up to the end of the stream. */
  function AllOutputs(packetType: PacketType, events: seq<Event>): seq<Packet> {
    if events == [] then []
    else if Ends(events[0]) then StepOutputs(packetType, events[0])
    else StepOutputs(packetType, events[0]) + AllOutputs(packetType, events[1..])
  }

  /** A mirror takes all packets of calls that succeed. */
  lemma ReceivedAll(packetType: PacketType, h: StreamHistory, packets: seq<Packet>, bound: Timestamp)
    requires Adding(packetType, h.s, packets).status == Ok
    ensures var r := Received(packetType, h, packets, bound);
            r.s.closed == h.s.closed && (!h.s.closed ==> r.accepted == h.accepted + packets)
  {
    var n := Taken(packetType, h.s, packets);
    if !h.s.closed {
      assert n == |packets| && packets[..n] == packets;
    }
  }

  lemma PropagatedGives(n: Stream, packets: seq<Packet>, bound: Timestamp, i: nat)
    requires CallsSucceed(n, packets, bound) && i < |n.mirrors|
    ensures var r := PropagatedAll(n, packets, bound);
            && r.mirrors[i].s.closed == n.mirrors[i].s.closed
            && (!n.mirrors[i].s.closed ==> r.mirrors[i].accepted == n.mirrors[i].accepted + packets)
  {
    ReceivedAll(n.mirrorTypes[i], n.mirrors[i], packets, bound);
  }

  lemma ClosedGives(n: Stream, i: nat)
    requires InStep(n) && i < |n.mirrors|
    ensures Closed(n).closed && |Closed(n).mirrors| == |n.mirrors| && Closed(n).packetType == n.packetType
    ensures Closed(n).mirrors[i].s.closed == n.mirrors[i].s.closed
    ensures !n.mirrors[i].s.closed ==> Closed(n).mirrors[i].accepted == n.mirrors[i].accepted
  {
    if !n.closed {
      var m := n.(closed := true);
      assert CallsSucceed(m, [], DONE) by {
        PropagatedAllInStep(n, [], DONE);
      }
      PropagatedGives(m, [], DONE, i);
    }
  }

  lemma NextGives(n: Stream, e: Event, i: nat)
    requires InStep(n) && Possible(n, e) && i < |n.mirrors|
    ensures var r := Next(n, e);
            && |r.mirrors| == |n.mirrors| && r.packetType == n.packetType
            && (n.mirrors[i].s.closed ==> r.mirrors[i].s.closed)
            && (r.closed <==> n.closed || Ends(e))
            && (!r.mirrors[i].s.closed ==>
                  r.mirrors[i].accepted ==
                  n.mirrors[i].accepted + (if n.closed then [] else StepOutputs(n.packetType, e)))
  {
    NextStaysInStep(n, e);
    match e
    case Process(t, ops) => ProcessGives(n, t, ops, i);
    case CloseNode(ops) => CloseNodeGives(n, ops, i);
    case UpdateBound(inputBound) =>
      var bound := BoundAfterInput(n.offset, n.closed, n.bound, inputBound);
      if bound > n.bound {
        PropagatedGives(n, [], bound, i);
      }
    case _ =>
  }

  lemma ProcessGives(n: Stream, t: Timestamp, ops: seq<ShardOp>, i: nat)
    requires InStep(n) && Possible(n, Process(t, ops)) && i < |n.mirrors|
    ensures var r := Next(n, Process(t, ops));
            && |r.mirrors| == |n.mirrors| && r.packetType == n.packetType
            && (n.mirrors[i].s.closed ==> r.mirrors[i].s.closed)
            && (r.closed <==> n.closed || HasClose(ops))
            && (!r.mirrors[i].s.closed ==>
                  r.mirrors[i].accepted ==
                  n.mirrors[i].accepted + (if n.closed then [] else Outputs(n.packetType, ops)))
  {
    QueueIsOutputs(n.packetType, n.bound, n.closed, ops);
    NextStaysInStep(n, Process(t, ops));
    if !n.closed {
      var s := Shard(n, ops);
      var bound := ComputeOutputTimestampBound(n.offset, s, t);
      OutputBoundIsExact(n.packetType, n.offset, n.bound, n.closed, ops, t);
      ShardStaysInStep(n, ops, bound);
      PropagatedGives(n, s.queue, bound, i);
      ClosedGives(PropagatedAll(n, s.queue, bound), i);
    }
    hide InStep, Outputs, HasClose, AllDone, CallsSucceed;
  }

  lemma CloseNodeGives(n: Stream, ops: seq<ShardOp>, i: nat)
    requires InStep(n) && Possible(n, CloseNode(ops)) && i < |n.mirrors|
    ensures var r := Next(n, CloseNode(ops));
            && |r.mirrors| == |n.mirrors| && r.packetType == n.packetType && r.closed
            && (n.mirrors[i].s.closed ==> r.mirrors[i].s.closed)
            && (!r.mirrors[i].s.closed ==>
                  r.mirrors[i].accepted ==
                  n.mirrors[i].accepted + (if n.closed then [] else Outputs(n.packetType, ops)))
  {
    QueueIsOutputs(n.packetType, n.bound, n.closed, ops);
    AllDoneKeepsInv(n.packetType, n.bound, n.closed, ops);
    ShardStaysInStep(n, ops, DONE);
    PropagatedGives(n, Shard(n, ops).queue, DONE, i);
    ClosedGives(PropagatedAll(n, Shard(n, ops).queue, DONE), i);
    hide InStep, Outputs, HasClose, AllDone, CallsSucceed;
  }

  /** Over a run, a mirror that is never closed is given exactly what the calculator
      outputs, in that order. */
  lemma {:induction false} OutputsReachMirrors(n: Stream, events: seq<Event>, i: nat)
    requires InStep(n) && CanRun(n, events) && i < |n.mirrors|
    ensures var r := Run(n, events);
            && |r.mirrors| == |n.mirrors| && (n.mirrors[i].s.closed ==> r.mirrors[i].s.closed)
            && (!r.mirrors[i].s.closed ==>
                  r.mirrors[i].accepted ==
                  n.mirrors[i].accepted + (if n.closed then [] else AllOutputs(n.packetType, events)))
    decreases |events|
  {
    hide InStep, Possible, Next, StepOutputs, Ends, StepSucceeds;
    if events != [] {
      NextStaysInStep(n, events[0]);
      NextGives(n, events[0], i);
      OutputsReachMirrors(Next(n, events[0]), events[1..], i);
    }
  }

  /** The bound that a calculator sets last is the bound of its stream, and so of all open
      mirrors, if it declares no offset. */
  lemma SetBoundReachesMirrors(n: Stream, t: Timestamp, ops: seq<ShardOp>, bound: Timestamp)
    requires InStep(n) && !n.closed && n.offset == None && !HasClose(ops)
    requires PRE_STREAM <= bound <= ONE_OVER_POST_STREAM && Possible(n, Process(t, ops + [ShardOp.SetBound(bound)]))
    ensures Next(n, Process(t, ops + [ShardOp.SetBound(bound)])).bound == bound
  {
    var more := ops + [ShardOp.SetBound(bound)];
    assert more[..|more| - 1] == ops;
    OutputBoundIsExact(n.packetType, n.offset, n.bound, n.closed, more, t);
    QueueIsOutputs(n.packetType, n.bound, n.closed, more);
    HasCloseAfter(ops, ShardOp.SetBound(bound));
    hide InStep;
  }
}
