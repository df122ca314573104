/** One input stream: a queue of packets and a bound on the next timestamp. */
module InputStreams {
  import opened Results
  import opened Timestamps

  datatype Packet = Packet(timestamp: Timestamp, typeId: nat, payload: int)

  /** What a node reads from a stream: a packet, or a missing packet that
      carries the timestamp below which the stream is settled. */
  datatype Slot = Missing(settled: Timestamp) | Present(packet: Packet)

  datatype PacketType = AnyType | OneOf(ids: set<nat>)

  predicate Validate(packetType: PacketType, p: Packet) {
    packetType.AnyType? || p.typeId in packetType.ids
  }

  /** The fields that stream_mutex_ guards. */
  datatype StreamState = StreamState(
    queue: seq<Packet>,
    numPacketsAdded: nat,
    bound: Timestamp,
    lastSelect: Timestamp,
    closed: bool,
    maxQueueSize: int)
  {
    /** The size is compared as an unsigned number, so that every negative maximum is
        out of reach (FullIsUnsignedComparison). */
    predicate IsFull() {
      maxQueueSize >= 0 && |queue| >= maxQueueSize
    }

    function MinTimestampOrBound(): Timestamp {
      if queue == [] then bound else queue[0].timestamp
    }

    /** What MinTimestampOrBound reports to a reader. */
    function View(): Sample {
      Sample(queue == [], MinTimestampOrBound())
    }
  }

  datatype Sample = Sample(empty: bool, timestamp: Timestamp)

  function Prepared(maxQueueSize: int): StreamState {
    StreamState([], 0, PRE_STREAM, UNSTARTED, false, maxQueueSize)
  }

  predicate Accepts(packetType: PacketType, s: StreamState, p: Packet) {
    && Validate(packetType, p)
    && IsAllowedInStream(p.timestamp)
    && !(p.timestamp == POST_STREAM && s.numPacketsAdded > 0)
    && s.bound <= p.timestamp
  }

  /** The stream with all the packets appended. */
  function AppendAll(s: StreamState, packets: seq<Packet>): StreamState {
    s.(queue := s.queue + packets,
       numPacketsAdded := s.numPacketsAdded + |packets|,
       bound := if packets == [] then s.bound else NextAllowedInStream(packets[|packets| - 1].timestamp))
  }

  lemma AppendNext(s: StreamState, packets: seq<Packet>, i: nat)
    requires i < |packets|
    ensures AppendAll(AppendAll(s, packets[..i]), [packets[i]]) == AppendAll(s, packets[..i + 1])
  {
    assert packets[..i + 1] == packets[..i] + [packets[i]];
    assert (s.queue + packets[..i]) + [packets[i]] == s.queue + packets[..i + 1];
  }

  /** With the first `i` packets appended, where the first rejected one is. */
  function AcceptedFrom(packetType: PacketType, s: StreamState, packets: seq<Packet>, i: nat): (n: nat)
    requires i <= |packets|
    ensures i <= n <= |packets|
    decreases |packets| - i
  {
    if i == |packets| || !Accepts(packetType, AppendAll(s, packets[..i]), packets[i]) then i
    else AcceptedFrom(packetType, s, packets, i + 1)
  }

  /** How many of the packets a call adds: a closed stream takes none. */
  function Taken(packetType: PacketType, s: StreamState, packets: seq<Packet>): (n: nat)
    ensures n <= |packets|
  {
    if s.closed then 0 else AcceptedFrom(packetType, s, packets, 0)
  }

  /** The effect of one call: the new state, its status, whether the consumer is
      notified, and whether a queue-size callback is now owed. */
  datatype Outcome = Outcome(state: StreamState, status: Status, notify: bool, callback: bool)

  function Adding(packetType: PacketType, s: StreamState, packets: seq<Packet>): Outcome {
    if s.closed then Outcome(s, Ok, false, false)
    else
      var n := Taken(packetType, s, packets);
      var r := AppendAll(s, packets[..n]);
      if n < |packets| then Outcome(r, Error, false, false)
      else Outcome(r, Ok, s.queue == [] && packets != [], !s.IsFull() && r.IsFull())
  }

  function SettingBound(s: StreamState, bound: Timestamp): Outcome {
    if s.closed then Outcome(s, Ok, false, false)
    else if bound < s.bound then Outcome(s, Error, false, false)
    else Outcome(s.(bound := bound), Ok, bound > s.bound && s.queue == [], false)
  }

  function Closing(s: StreamState): StreamState {
    if s.closed then s else s.(bound := DONE, lastSelect := DONE, closed := true)
  }

  function Resizing(s: StreamState, maxQueueSize: int): Outcome {
    var r := s.(maxQueueSize := maxQueueSize);
    Outcome(r, Ok, false, s.IsFull() != r.IsFull())
  }

  /** The first index from `i` on whose packet is after `t`. */
  function ReachedFrom(queue: seq<Packet>, t: Timestamp, i: nat): (n: nat)
    requires i <= |queue|
    ensures i <= n <= |queue|
    ensures forall k :: i <= k < n ==> queue[k].timestamp <= t
    ensures n < |queue| ==> queue[n].timestamp > t
    decreases |queue| - i
  {
    if i < |queue| && queue[i].timestamp <= t then ReachedFrom(queue, t, i + 1) else i
  }

  /** How many leading packets have a timestamp at or below `t`. */
  function Reached(queue: seq<Packet>, t: Timestamp): nat {
    ReachedFrom(queue, t, 0)
  }

  /** The stream once time has advanced to `t`. */
  function Popping(s: StreamState, t: Timestamp): StreamState {
    s.(queue := s.queue[Reached(s.queue, t)..],
       lastSelect := t,
       bound := if s.bound <= t then NextAllowedInStream(t) else s.bound)
  }

  /** What a pop returns, from the last of the `popped` packets and the frontier
      left behind: that packet if it is at `t`, else a missing packet settled just
      below the frontier. The drop count starts from -1. */
  function Selected(last: Option<Packet>, popped: nat, t: Timestamp, frontier: Timestamp): (Slot, int) {
    if last.Some? && last.value.timestamp == t then (Present(last.value), -1 + popped)
    else (Missing(PreviousAllowedInStream(frontier)), -1 + popped + 1)
  }

  function LastReached(queue: seq<Packet>, n: nat): Option<Packet>
    requires n <= |queue|
  {
    if n == 0 then None else Some(queue[n - 1])
  }

  function Popped(s: StreamState, t: Timestamp): (Slot, int) {
    var n := Reached(s.queue, t);
    Selected(LastReached(s.queue, n), n, t, Popping(s, t).MinTimestampOrBound())
  }

  /** An InputStreamManager with timestamps enabled. Each method body is the
      critical section under stream_mutex_; a callback that the source runs after
      unlocking is returned as owed. Step, below, takes a whole history through
      the same state functions. */
  class InputStreamManager {
    const packetType: PacketType
    var queue: seq<Packet>
    var numPacketsAdded: nat
    var nextTimestampBound: Timestamp
    var lastSelectTimestamp: Timestamp
    var closed: bool
    var maxQueueSize: int

    ghost function State(): StreamState
      reads this
    {
      StreamState(queue, numPacketsAdded, nextTimestampBound, lastSelectTimestamp, closed, maxQueueSize)
    }

    constructor (packetType: PacketType, maxQueueSize: int)
      ensures this.packetType == packetType
      ensures State() == Prepared(maxQueueSize)
    {
      this.packetType := packetType;
      this.maxQueueSize := maxQueueSize;
      queue, numPacketsAdded, closed := [], 0, false;
      nextTimestampBound, lastSelectTimestamp := PRE_STREAM, UNSTARTED;
    }

    method PrepareForRun()
      modifies this
      ensures State() == Prepared(old(maxQueueSize))
    {
      queue, numPacketsAdded, closed := [], 0, false;
      nextTimestampBound, lastSelectTimestamp := PRE_STREAM, UNSTARTED;
    }

    /** The loop of AddPackets: appends packets until one is rejected. */
    method AppendAccepted(packets: seq<Packet>) returns (i: nat)
      modifies `queue, `numPacketsAdded, `nextTimestampBound
      ensures i == AcceptedFrom(packetType, old(State()), packets, 0)
      ensures State() == AppendAll(old(State()), packets[..i])
    {
      ghost var start := State();
      i := 0;
      assert packets[..0] == [] && start.queue + [] == start.queue;
      while i < |packets|
        invariant 0 <= i <= |packets|
        invariant AcceptedFrom(packetType, start, packets, i) == AcceptedFrom(packetType, start, packets, 0)
        invariant State() == AppendAll(start, packets[..i])
      {
        var p := packets[i];
        ghost var before := State();
        if !Validate(packetType, p)
           || !IsAllowedInStream(p.timestamp)
           || (p.timestamp == POST_STREAM && numPacketsAdded > 0)
           || p.timestamp < nextTimestampBound
        {
          return;
        }
        nextTimestampBound := NextAllowedInStream(p.timestamp);
        numPacketsAdded := numPacketsAdded + 1;
        queue := queue + [p];
        assert State() == AppendAll(before, [p]);
        AppendNext(start, packets, i);
        i := i + 1;
      }
    }

    method AddPackets(packets: seq<Packet>) returns (status: Status, notify: bool, becameFull: bool)
      modifies this
      ensures Adding(packetType, old(State()), packets) == Outcome(State(), status, notify, becameFull)
    {
      status, notify, becameFull := Ok, false, false;
      if closed {
        return;
      }
      var wasFull := maxQueueSize >= 0 && |queue| >= maxQueueSize;
      var becameNonEmpty := queue == [] && packets != [];
      var taken := AppendAccepted(packets);
      if taken < |packets| {
        status := Error;
        return;
      }
      becameFull := !wasFull && maxQueueSize >= 0 && |queue| >= maxQueueSize;
      notify := becameNonEmpty;
    }

    method SetNextTimestampBound(bound: Timestamp) returns (status: Status, notify: bool)
      modifies this
      ensures Outcome(State(), status, notify, false) == SettingBound(old(State()), bound)
    {
      status, notify := Ok, false;
      if closed {
        return;
      }
      if bound < nextTimestampBound {
        status := Error;
        return;
      }
      if bound > nextTimestampBound {
        nextTimestampBound := bound;
        notify := queue == [];
      }
    }

    method Close()
      modifies this
      ensures State() == Closing(old(State()))
    {
      if closed {
        return;
      }
      nextTimestampBound, lastSelectTimestamp, closed := DONE, DONE, true;
    }

    method SetMaxQueueSize(maxQueueSize: int) returns (callback: bool)
      modifies this
      ensures Outcome(State(), Ok, false, callback) == Resizing(old(State()), maxQueueSize)
    {
      var wasFull := this.maxQueueSize >= 0 && |queue| >= this.maxQueueSize;
      this.maxQueueSize := maxQueueSize;
      var isFull := this.maxQueueSize >= 0 && |queue| >= this.maxQueueSize;
      callback := wasFull != isFull;
    }

    method QueueSize() returns (size: nat)
      ensures size == |queue|
    {
      size := |queue|;
    }

    method IsFull() returns (isFull: bool)
      ensures isFull == State().IsFull()
    {
      isFull := maxQueueSize >= 0 && |queue| >= maxQueueSize;
    }

    /** The loop of PopPacketAtTimestamp: takes every packet at or before `t`. */
    method PopReached(t: Timestamp) returns (last: Option<Packet>, popped: nat)
      modifies `queue
      ensures popped == Reached(old(queue), t) && queue == old(queue)[popped..]
      ensures last == LastReached(old(queue), popped)
    {
      last, popped := None, 0;
      while queue != [] && queue[0].timestamp <= t
        invariant popped <= Reached(old(queue), t) && queue == old(queue)[popped..]
        invariant last == LastReached(old(queue), popped)
        decreases |queue|
      {
        last := Some(queue[0]);
        queue := queue[1..];
        popped := popped + 1;
      }
    }

    /** Pops the packet at `t`; the source CHECKs that time does not go back. */
    method PopPacketAtTimestamp(t: Timestamp)
      returns (slot: Slot, dropped: int, streamIsDone: bool, becameNonFull: bool)
      requires lastSelectTimestamp <= t
      modifies this
      ensures State() == Popping(old(State()), t)
      ensures (slot, dropped) == Popped(old(State()), t)
      ensures streamIsDone <==> queue == [] && nextTimestampBound == DONE
      ensures becameNonFull <==> old(State()).IsFull() && !State().IsFull()
    {
      lastSelectTimestamp := t;
      if nextTimestampBound <= t {
        nextTimestampBound := NextAllowedInStream(t);
      }
      var wasFull := maxQueueSize >= 0 && |queue| >= maxQueueSize;
      var last, popped := PopReached(t);
      var result := Selected(last, popped, t, if queue == [] then nextTimestampBound else queue[0].timestamp);
      slot, dropped := result.0, result.1;
      becameNonFull := wasFull && |queue| < maxQueueSize;
      streamIsDone := queue == [] && nextTimestampBound == DONE;
    }
  }

  // ----- One run of a stream -----

  datatype Op = Add(packets: seq<Packet>) | SetBound(bound: Timestamp) | Pop(t: Timestamp) | Close | Resize(size: int)

  /** A stream with everything it ever accepted and everything taken from it. */
  datatype StreamHistory = StreamHistory(s: StreamState, accepted: seq<Packet>, removed: seq<Packet>) {

    ghost predicate Valid() {
      && accepted == removed + s.queue
      && s.numPacketsAdded == |accepted|
      && WellOrdered(accepted, s.bound)
      && (forall k :: 0 <= k < |removed| ==> removed[k].timestamp <= s.lastSelect)
      && (if s.closed then s.lastSelect == s.bound == DONE else s.lastSelect < s.MinTimestampOrBound())
    }
  }

  /** Strictly increasing, below the bound, and a summary packet stands alone. */
  ghost predicate WellOrdered(accepted: seq<Packet>, bound: Timestamp) {
    && PRE_STREAM <= bound
    && Increasing(accepted)
    && (forall k :: 0 <= k < |accepted| ==>
        PRE_STREAM <= accepted[k].timestamp < bound && accepted[k].timestamp <= POST_STREAM)
    && (forall k :: 0 <= k < |accepted| ==> accepted[k].timestamp == PRE_STREAM ==> bound > POST_STREAM)
    && (|accepted| > 1 ==> forall k :: 0 <= k < |accepted| ==> IsRangeValue(accepted[k].timestamp))
  }

  ghost predicate Increasing(packets: seq<Packet>) {
    forall j, k :: 0 <= j < k < |packets| ==> packets[j].timestamp < packets[k].timestamp
  }

  /** Whether the source's CHECKs let the operation run. */
  predicate Enabled(s: StreamState, op: Op) {
    op.Pop? ==> s.lastSelect <= op.t && IsAllowedInStream(op.t)
  }

  function Step(packetType: PacketType, h: StreamHistory, op: Op): StreamHistory {
    match op
    case Add(packets) =>
      StreamHistory(Adding(packetType, h.s, packets).state,
                    h.accepted + packets[..Taken(packetType, h.s, packets)],
                    h.removed)
    case SetBound(bound) => h.(s := SettingBound(h.s, bound).state)
    case Pop(t) => h.(s := Popping(h.s, t), removed := h.removed + h.s.queue[..Reached(h.s.queue, t)])
    case Close => h.(s := Closing(h.s))
    case Resize(size) => h.(s := Resizing(h.s, size).state)
  }

  const INT32_MIN: int := -0x8000_0000
  const INT32_MAX: int := 0x7FFF_FFFF
  const SIZE_LIMIT: int := 0x1_0000_0000_0000_0000

  /** The conversion to size_t of a maximum that is compared to a queue's size. */
  function AsSize(maxQueueSize: int): int {
    if maxQueueSize < 0 then maxQueueSize + SIZE_LIMIT else maxQueueSize
  }

  /** A stream is full if there is a maximum, other than -1, and its size is not less as
      an unsigned number; a negative maximum is out of reach of every queue that fits
      into memory. */
  lemma FullIsUnsignedComparison(s: StreamState)
    requires INT32_MIN <= s.maxQueueSize <= INT32_MAX && |s.queue| < SIZE_LIMIT / 2
    ensures s.IsFull() <==> s.maxQueueSize != -1 && |s.queue| >= AsSize(s.maxQueueSize)
    ensures s.maxQueueSize < 0 ==> !s.IsFull()
  {
  }

  /** A call takes exactly the packets before the first rejected one. */
  lemma {:induction false} TakenIsLongestAccepted(packetType: PacketType, s: StreamState, packets: seq<Packet>, i: nat,
          k: nat)
    requires i <= k < |packets| && k <= AcceptedFrom(packetType, s, packets, i)
    ensures k < AcceptedFrom(packetType, s, packets, i) <==> Accepts(packetType, AppendAll(s, packets[..k]), packets[k])
    decreases k - i
  {
    if i < k {
      TakenIsLongestAccepted(packetType, s, packets, i + 1, k);
    }
  }

  lemma PreparedIsValid(maxQueueSize: int)
    ensures StreamHistory(Prepared(maxQueueSize), [], []).Valid()
  {
  }

  lemma QueueIsIncreasing(h: StreamHistory)
    requires h.Valid()
    ensures Increasing(h.s.queue)
    ensures forall k :: 0 <= k < |h.s.queue| ==>
      PRE_STREAM <= h.s.queue[k].timestamp < h.s.bound && h.s.queue[k].timestamp <= POST_STREAM
  {
    assert WellOrdered(h.removed + h.s.queue, h.s.bound);
    hide StreamHistory.Valid, WellOrdered, Increasing;
    SuffixIsIncreasing(h.removed, h.s.queue, h.s.bound);
  }

  lemma SuffixIsIncreasing(removed: seq<Packet>, queue: seq<Packet>, bound: Timestamp)
    requires WellOrdered(removed + queue, bound)
    ensures Increasing(queue)
    ensures forall k :: 0 <= k < |queue| ==>
            PRE_STREAM <= queue[k].timestamp < bound && queue[k].timestamp <= POST_STREAM
  {
    var all := removed + queue;
    assert Increasing(all) && forall k :: 0 <= k < |all| ==>
           PRE_STREAM <= all[k].timestamp < bound && all[k].timestamp <= POST_STREAM;
    hide WellOrdered;
    assert forall k :: 0 <= k < |queue| ==> queue[k] == all[|removed| + k];
  }

  /** A pop drops exactly the queued packets before `t`, and finds the packet at
      `t` exactly if one is queued. */
  lemma PopIsExact(s: StreamState, t: Timestamp)
    requires Increasing(s.queue)
    ensures 0 <= Popped(s, t).1 <= |s.queue|
    ensures forall k :: 0 <= k < |s.queue| ==> (k < Popped(s, t).1 <==> s.queue[k].timestamp < t)
    ensures forall p :: Popped(s, t).0 == Present(p) <==> p in s.queue && p.timestamp == t
  {
  }

  /** A missing packet tells how far its stream is settled: to the latest timestamp below
      all that the stream can still show, which is not before the popped one. Nothing is
      settled before a packet at PostStream. */
  lemma MissingIsSettled(s: StreamState, t: Timestamp, u: Timestamp)
    requires IsAllowedInStream(t) && Increasing(s.queue) && Popped(s, t).0 == Missing(u)
    ensures var frontier := Popping(s, t).MinTimestampOrBound();
            && t < frontier
            && (if frontier == POST_STREAM || frontier <= MIN then u == UNSTARTED
                else u < frontier && (IsRangeValue(t) ==> t <= u)
                     && forall v: Timestamp :: IsRangeValue(v) && v < frontier ==> v <= u)
  {
  }

  /** A pop takes time past the popped timestamp, and no further than that. */
  lemma PopAdvancesBound(s: StreamState, t: Timestamp)
    requires IsAllowedInStream(t)
    ensures Popping(s, t).bound == if s.bound <= t then NextAllowedInStream(t) else s.bound
    ensures Popping(s, t).lastSelect == t && Popping(s, t).maxQueueSize == s.maxQueueSize
    ensures forall p :: p in Popping(s, t).queue ==> p in s.queue
  {
  }

  /** A call with a packet that is rejected keeps the packets before it, and neither
      notifies nor calls back. */
  lemma RejectedCallIsSilent(packetType: PacketType, s: StreamState, packets: seq<Packet>)
    requires Adding(packetType, s, packets).status == Error
    ensures !s.closed && !Adding(packetType, s, packets).notify && !Adding(packetType, s, packets).callback
    ensures exists k :: 0 <= k < |packets| && Adding(packetType, s, packets).state == AppendAll(s, packets[..k])
              && !Accepts(packetType, AppendAll(s, packets[..k]), packets[k])
  {
    var n := Taken(packetType, s, packets);
    TakenIsLongestAccepted(packetType, s, packets, 0, n);
  }

  /** A bound is rejected exactly if it goes back, and else is the stream's, unless the
      stream is closed. */
  lemma SettingBoundIsExact(s: StreamState, bound: Timestamp)
    ensures var o := SettingBound(s, bound);
            && (o.status == Error <==> !s.closed && bound < s.bound)
            && (o.status == Error ==> !o.notify)
            && o.state == s.(bound := if !s.closed && o.status == Ok then bound else s.bound)
  {
  }

  /** Closing is final: no call of a producer, and no second closing, changes anything. */
  lemma ClosingIsFinal(packetType: PacketType, s: StreamState, packets: seq<Packet>, bound: Timestamp)
    requires !s.closed
    ensures var r := Closing(s);
            && r.closed && r.bound == DONE && r.queue == s.queue && Closing(r) == r
            && Adding(packetType, r, packets).state == r && SettingBound(r, bound).state == r
  {
  }

  /** The maximum that is asked for decides from now on what is full. */
  lemma ResizingIsExact(s: StreamState, size: nat)
    ensures Resizing(s, size).state.IsFull() <==> |s.queue| >= size
    ensures !Resizing(s, -1).state.IsFull()
    ensures Resizing(s, size).state == s.(maxQueueSize := size) && !Resizing(s, size).notify
  {
  }

  lemma WellOrderedSnoc(accepted: seq<Packet>, bound: Timestamp, p: Packet)
    requires WellOrdered(accepted, bound)
    requires IsAllowedInStream(p.timestamp) && bound <= p.timestamp && (p.timestamp == POST_STREAM ==> accepted == [])
    ensures WellOrdered(accepted + [p], NextAllowedInStream(p.timestamp))
  {
    if accepted != [] {
      assert PRE_STREAM <= accepted[0].timestamp < bound;
      assert |accepted| == 1 ==> accepted[0].timestamp != POST_STREAM;
    }
  }

  /** One packet appended to the history, and to the queue. */
  lemma SnocKeepsValid(h: StreamHistory, p: Packet, r: StreamHistory)
    requires h.Valid() && !h.s.closed
    requires IsAllowedInStream(p.timestamp) && h.s.bound <= p.timestamp
             && (p.timestamp == POST_STREAM ==> h.accepted == [])
    requires r == StreamHistory(AppendAll(h.s, [p]), h.accepted + [p], h.removed)
    ensures r.Valid()
  {
    WellOrderedSnoc(h.accepted, h.s.bound, p);
    hide WellOrdered, Increasing;
    assert r.s.queue == h.s.queue + [p];
    assert r.accepted == r.removed + r.s.queue;
  }

  lemma AppendKeepsValid(packetType: PacketType, h: StreamHistory, packets: seq<Packet>, n: nat)
    requires h.Valid() && !h.s.closed && n < |packets|
    requires StreamHistory(AppendAll(h.s, packets[..n]), h.accepted + packets[..n], h.removed).Valid()
    requires Accepts(packetType, AppendAll(h.s, packets[..n]), packets[n])
    ensures StreamHistory(AppendAll(h.s, packets[..n + 1]), h.accepted + packets[..n + 1], h.removed).Valid()
  {
    var p := packets[n];
    var before := StreamHistory(AppendAll(h.s, packets[..n]), h.accepted + packets[..n], h.removed);
    var after := StreamHistory(AppendAll(h.s, packets[..n + 1]), h.accepted + packets[..n + 1], h.removed);
    assert packets[..n + 1] == packets[..n] + [p];
    assert after.s == AppendAll(before.s, [p]);
    assert after.accepted == before.accepted + [p];
    assert p.timestamp == POST_STREAM ==> before.accepted == [];
    hide *;
    SnocKeepsValid(before, p, after);
  }

  lemma {:induction false} AddKeepsValid(packetType: PacketType, h: StreamHistory, packets: seq<Packet>, n: nat)
    requires h.Valid() && !h.s.closed && n <= AcceptedFrom(packetType, h.s, packets, 0)
    ensures StreamHistory(AppendAll(h.s, packets[..n]), h.accepted + packets[..n], h.removed).Valid()
  {
    if n == 0 {
      assert packets[..0] == [] && h.accepted + [] == h.accepted && AppendAll(h.s, []).queue == h.s.queue;
    } else {
      AddKeepsValid(packetType, h, packets, n - 1);
      TakenIsLongestAccepted(packetType, h.s, packets, 0, n - 1);
      AppendKeepsValid(packetType, h, packets, n - 1);
    }
  }

  lemma PopKeepsValid(packetType: PacketType, h: StreamHistory, t: Timestamp)
    requires h.Valid() && Enabled(h.s, Pop(t))
    ensures Step(packetType, h, Pop(t)).Valid()
  {
  }

  /** Every operation keeps the history invariant. */
  lemma StepKeepsValid(packetType: PacketType, h: StreamHistory, op: Op)
    requires h.Valid() && Enabled(h.s, op)
    ensures Step(packetType, h, op).Valid()
  {
    match op
    case Add(packets) =>
      if h.s.closed {
        assert h.accepted + [] == h.accepted;
      } else {
        AddKeepsValid(packetType, h, packets, AcceptedFrom(packetType, h.s, packets, 0));
      }
    case Pop(t) => PopKeepsValid(packetType, h, t);
    case SetBound(_) =>
    case Close =>
    case Resize(_) =>
  }

  function Frontier(h: StreamHistory): Timestamp {
    h.s.MinTimestampOrBound()
  }

  /** One operation only extends the history and only advances the frontier. */
  lemma StepAdvances(packetType: PacketType, h: StreamHistory, op: Op)
    requires h.Valid() && Enabled(h.s, op)
    ensures var r := Step(packetType, h, op);
            h.accepted <= r.accepted && h.removed <= r.removed && Frontier(h) <= Frontier(r) && h.s.bound <= r.s.bound
  {
    if op.Add? {
      AddAdvances(packetType, h, op.packets);
    }
  }

  lemma AddAdvances(packetType: PacketType, h: StreamHistory, packets: seq<Packet>)
    requires h.Valid()
    ensures var r := Step(packetType, h, Add(packets));
            && h.s.bound <= r.s.bound && Frontier(h) <= Frontier(r)
            && (forall k :: |h.accepted| <= k < |r.accepted| ==> h.s.bound <= r.accepted[k].timestamp)
  {
    StepKeepsValid(packetType, h, Add(packets));
    var r, n := Step(packetType, h, Add(packets)), Taken(packetType, h.s, packets);
    assert WellOrdered(r.accepted, r.s.bound);
    if n > 0 {
      TakenIsLongestAccepted(packetType, h.s, packets, 0, 0);
      assert AppendAll(h.s, packets[..0]).bound == h.s.bound <= packets[0].timestamp;
      assert r.accepted == h.accepted + packets[..n] && r.s.queue == h.s.queue + packets[..n];
      hide StreamHistory.Valid, Step, Taken, AcceptedFrom, AppendAll;
      LaterThanFirst(r.accepted, r.s.bound, |h.accepted|);
      hide WellOrdered;
      assert h.s.bound <= r.accepted[|h.accepted|].timestamp;
    } else {
      hide StreamHistory.Valid, WellOrdered;
      assert packets[..0] == [] && AppendAll(h.s, []).queue == h.s.queue;
      assert r.s.queue == h.s.queue && r.accepted == h.accepted;
    }
  }

  lemma LaterThanFirst(accepted: seq<Packet>, bound: Timestamp, from: nat)
    requires WellOrdered(accepted, bound) && from < |accepted|
    ensures forall k :: from <= k < |accepted| ==> accepted[from].timestamp <= accepted[k].timestamp < bound
  {
  }

  ghost predicate RunEnabled(packetType: PacketType, h: StreamHistory, ops: seq<Op>)
    decreases |ops|
  {
    ops == [] || (Enabled(h.s, ops[0]) && RunEnabled(packetType, Step(packetType, h, ops[0]), ops[1..]))
  }

  ghost function Run(packetType: PacketType, h: StreamHistory, ops: seq<Op>): StreamHistory
    decreases |ops|
  {
    if ops == [] then h else Run(packetType, Step(packetType, h, ops[0]), ops[1..])
  }

  /** Over a whole run, rejected calls included, accepted timestamps strictly
      increase, a PreStream or PostStream packet is alone, everything queued is
      below the bound, and the frontier never goes back. */
  lemma {:induction false} RunKeepsHistory(packetType: PacketType, h: StreamHistory, ops: seq<Op>)
    requires h.Valid() && RunEnabled(packetType, h, ops)
    ensures var r := Run(packetType, h, ops);
            r.Valid() && h.accepted <= r.accepted && h.removed <= r.removed
            && Frontier(h) <= Frontier(r) && h.s.bound <= r.s.bound
    decreases |ops|
  {
    if ops != [] {
      StepKeepsValid(packetType, h, ops[0]);
      StepAdvances(packetType, h, ops[0]);
      RunKeepsHistory(packetType, Step(packetType, h, ops[0]), ops[1..]);
    }
  }

  // ----- What producers can change under a reader -----

  predicate IsProducerOp(op: Op) {
    op.Add? || op.SetBound? || op.Resize?
  }

  /** A producer's effect seen by a reader: nothing leaves the queue, and the
      frontier and the bound only advance. */
  ghost predicate ProducedFrom(h: StreamHistory, r: StreamHistory) {
    && h.accepted <= r.accepted
    && h.removed == r.removed
    && h.s.queue <= r.s.queue
    && Frontier(h) <= Frontier(r)
    && h.s.bound <= r.s.bound
    && h.s.closed == r.s.closed
    && h.s.lastSelect == r.s.lastSelect
    && (forall k :: |h.accepted| <= k < |r.accepted| ==> h.s.bound <= r.accepted[k].timestamp)
  }

  lemma ProducerStep(packetType: PacketType, h: StreamHistory, op: Op)
    requires h.Valid() && IsProducerOp(op)
    ensures ProducedFrom(h, Step(packetType, h, op))
  {
    if op.Add? {
      AddAdvances(packetType, h, op.packets);
    }
  }

  /** Closing a stream makes every later call by its producer a no-op. */
  lemma ClosedStreamIgnoresProducers(packetType: PacketType, h: StreamHistory, op: Op)
    requires h.s.closed && (op.Add? || op.SetBound?)
    ensures Step(packetType, h, op) == h
  {
  }

  /** Once the bound is past PostStream, no further packet is acceptable. */
  lemma EndedStreamTakesNothing(packetType: PacketType, s: StreamState, packets: seq<Packet>)
    requires s.bound >= ONE_OVER_POST_STREAM
    ensures Taken(packetType, s, packets) == 0
  {
  }

  /** A successful call notifies the consumer exactly when what the consumer can
      see of the stream changed. */
  lemma NotifyIffViewChanges(packetType: PacketType, s: StreamState, packets: seq<Packet>, bound: Timestamp)
    ensures var o := Adding(packetType, s, packets);
            o.status == Ok ==> (o.notify <==> o.state.View() != s.View())
    ensures var o := SettingBound(s, bound);
            o.status == Ok ==> (o.notify <==> o.state.View() != s.View())
  {
  }
}
