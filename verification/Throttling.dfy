/** Throttling: which source nodes and graph inputs are held back by full streams.
    Fullness callbacks may come late and out of order; each recomputes fullness
    under one lock. */
module Throttling {
  import opened Results
  import opened Timestamps
  import opened InputStreams

  /** What full_input_streams_mutex_ guards: the flag last reported for each stream,
      the full streams of each node, and the number of throttled graph inputs, which
      are the nodes numbered from `calculators` on. */
  datatype Bookkeeping = Bookkeeping(wasFull: seq<bool>, full: seq<set<nat>>, throttledInputs: int)

  /** The graph inputs among the first `n` nodes that have a full stream. */
  function CountThrottled(full: seq<set<nat>>, calculators: nat, n: nat): nat
    requires n <= |full|
  {
    if n == 0 then 0
    else CountThrottled(full, calculators, n - 1) + if n - 1 >= calculators && full[n - 1] != {} then 1 else 0
  }

  function Marked(streams: set<nat>, s: nat, isFull: bool): set<nat> {
    if isFull then streams + {s} else streams - {s}
  }

  /** The full streams once stream `s` was recorded at the nodes in `done`. */
  function MarkedAt(full: seq<set<nat>>, done: set<nat>, s: nat, isFull: bool): seq<set<nat>> {
    seq(|full|, n requires 0 <= n < |full| => if n in done then Marked(full[n], s, isFull) else full[n])
  }

  /** Records the fullness that stream `s` has now at its upstream nodes. */
  function Updated(b: Bookkeeping, s: nat, isFull: bool, upstream: set<nat>, calculators: nat): Bookkeeping
    requires s < |b.wasFull|
  {
    if b.wasFull[s] == isFull then b
    else
      var full := MarkedAt(b.full, upstream, s, isFull);
      Bookkeeping(b.wasFull[s := isFull], full,
                  b.throttledInputs
                    + CountThrottled(full, calculators, |full|) - CountThrottled(b.full, calculators, |b.full|))
  }

  ghost predicate Recorded(b: Bookkeeping, s: nat, upstream: set<nat>)
    requires s < |b.wasFull|
  {
    && (forall n :: n in upstream ==> n < |b.full|)
    && (forall n :: 0 <= n < |b.full| ==> (s in b.full[n] <==> n in upstream && b.wasFull[s]))
  }

  lemma {:induction false} CountUpdate(full: seq<set<nat>>, calculators: nat, n: nat, i: nat, streams: set<nat>)
    requires n <= |full| && i < |full|
    ensures CountThrottled(full[i := streams], calculators, n) == CountThrottled(full, calculators, n)
              + (if calculators <= i < n && streams != {} then 1 else 0)
              - (if calculators <= i < n && full[i] != {} then 1 else 0)
  {
    if n > 0 {
      CountUpdate(full, calculators, n - 1, i, streams);
    }
  }

  /** The graph inputs among the first `n` nodes that some full stream holds back. */
  function HeldBack(full: seq<set<nat>>, calculators: nat, n: nat): set<nat>
    requires n <= |full|
  {
    set k: nat | calculators <= k < n && full[k] != {}
  }

  /** The count is their number. */
  lemma {:induction false} CountIsExact(full: seq<set<nat>>, calculators: nat, n: nat)
    requires n <= |full|
    ensures CountThrottled(full, calculators, n) == |HeldBack(full, calculators, n)|
  {
    if n > 0 {
      CountIsExact(full, calculators, n - 1);
      OneMoreHeldBack(full, calculators, n - 1);
      hide HeldBack;
    }
  }

  lemma OneMoreHeldBack(full: seq<set<nat>>, calculators: nat, k: nat)
    requires k < |full|
    ensures k !in HeldBack(full, calculators, k)
    ensures HeldBack(full, calculators, k + 1) ==
            HeldBack(full, calculators, k) + if calculators <= k && full[k] != {} then {k} else {}
  {
  }

  class CalculatorGraph {
    const calculators: nat
    var streamWasFull: seq<bool>
    var fullInputStreams: seq<set<nat>>
    var throttledGraphInputStreamCount: int

    ghost function State(): Bookkeeping
      reads this
    {
      Bookkeeping(streamWasFull, fullInputStreams, throttledGraphInputStreamCount)
    }

    /** Records stream `s` at node `n`, and tells the scheduler about a graph input.
        True if the node is no longer throttled. */
    method RecordAtNode(n: nat, s: nat, isFull: bool) returns (unthrottled: bool)
      requires n < |fullInputStreams| && (s in fullInputStreams[n] <==> !isFull)
      modifies `fullInputStreams, `throttledGraphInputStreamCount
      ensures fullInputStreams == old(fullInputStreams)[n := Marked(old(fullInputStreams)[n], s, isFull)]
      ensures throttledGraphInputStreamCount - CountThrottled(fullInputStreams, calculators, |fullInputStreams|)
        == old(throttledGraphInputStreamCount - CountThrottled(fullInputStreams, calculators, |fullInputStreams|))
      ensures unthrottled <==> fullInputStreams[n] == {}
    {
      var before := fullInputStreams[n];
      var wasThrottled := before != {};
      var after := if isFull then before + {s} else before - {s};
      fullInputStreams := fullInputStreams[n := after];
      CountUpdate(old(fullInputStreams), calculators, |fullInputStreams|, n, after);
      var isThrottled := after != {};
      if n >= calculators {
        if !isThrottled {
          throttledGraphInputStreamCount := throttledGraphInputStreamCount - 1;
        } else if !wasThrottled && isThrottled {
          throttledGraphInputStreamCount := throttledGraphInputStreamCount + 1;
        }
      }
      unthrottled := !isThrottled;
    }

    /** `isFull` is what the stream answers under the lock. Returns the source nodes
        to schedule: those that are active and no longer throttled. */
    method UpdateThrottledNodes(s: nat, isFull: bool, upstream: set<nat>, activeNodes: set<nat>)
      returns (toSchedule: set<nat>)
      requires s < |streamWasFull| && Recorded(State(), s, upstream)
      modifies this
      ensures State() == Updated(old(State()), s, isFull, upstream, calculators)
      ensures forall n :: n in toSchedule <==>
        old(streamWasFull)[s] && !isFull && n in upstream && n < calculators && n in activeNodes
          && State().full[n] == {}
    {
      toSchedule := {};
      ghost var start := State();
      assert MarkedAt(start.full, {}, s, isFull) == start.full;
      if streamWasFull[s] != isFull {
        var remaining := upstream;
        while remaining != {}
          invariant remaining <= upstream && streamWasFull == start.wasFull
          invariant fullInputStreams == MarkedAt(start.full, upstream - remaining, s, isFull)
          invariant throttledGraphInputStreamCount - CountThrottled(fullInputStreams, calculators, |fullInputStreams|)
            == start.throttledInputs - CountThrottled(start.full, calculators, |start.full|)
          invariant forall n :: n in toSchedule <==>
            !isFull && n in upstream - remaining && n < calculators && n in activeNodes && fullInputStreams[n] == {}
        {
          var n :| n in remaining;
          var unthrottled := RecordAtNode(n, s, isFull);
          if n < calculators && unthrottled && n in activeNodes {
            toSchedule := toSchedule + {n};
          }
          remaining := remaining - {n};
        }
        assert upstream - remaining == upstream;
      }
      streamWasFull := streamWasFull[s := isFull];
    }

    /** The full streams that may grow: a graph output stream stays as it is. */
    method FullStreams(outputs: set<nat>) returns (streams: set<nat>)
      ensures streams == MayGrow(fullInputStreams, |fullInputStreams|, outputs)
    {
      streams := {};
      for n := 0 to |fullInputStreams|
        invariant streams == MayGrow(fullInputStreams, n, outputs)
      {
        streams := streams + (fullInputStreams[n] - outputs);
      }
    }

    /** Makes room in stream `i` for one packet more than it held when `size` was read,
        which is an earlier critical section, and runs the callback this owes. */
    method Grow(i: nat, stream: InputStreamManager, size: nat, upstream: set<nat>, activeNodes: set<nat>)
      requires i < |streamWasFull| && Recorded(State(), i, upstream)
      modifies this, stream
      ensures stream.State() == Resizing(old(stream.State()), size + 1).state
      ensures State() == if Resizing(old(stream.State()), size + 1).callback
                         then Updated(old(State()), i, stream.State().IsFull(), upstream, calculators) else old(State())
    {
      var callback := stream.SetMaxQueueSize(size + 1);
      if callback {
        var isFull := stream.IsFull();
        var toSchedule := UpdateThrottledNodes(i, isFull, upstream, activeNodes);
      }
    }

    /** With nothing in between, the stream is then not full. */
    method ReadSizeAndGrow(i: nat, stream: InputStreamManager, upstream: set<nat>, activeNodes: set<nat>)
      requires i < |streamWasFull| && Recorded(State(), i, upstream)
      modifies this, stream
      ensures stream.State() == Grown(old(stream.State()))
      ensures State() == if old(stream.State().IsFull()) then Updated(old(State()), i, false, upstream, calculators)
                         else old(State())
    {
      var size := stream.QueueSize();
      Grow(i, stream, size, upstream, activeNodes);
    }

    /** Makes room in every stream of `toGrow`. */
    method GrowAll(toGrow: set<nat>, streams: seq<InputStreamManager>, upstream: seq<set<nat>>, activeNodes: set<nat>)
      requires |streams| == |upstream| == |streamWasFull| && Distinct(streams)
      requires AllRecorded(State(), upstream) && forall i :: i in toGrow ==> i < |streams|
      modifies this, streams
      ensures forall i :: 0 <= i < |streams| ==>
        streams[i].State() == if i in toGrow then Grown(old(streams[i].State())) else old(streams[i].State())
      ensures |streamWasFull| == |streams| && AllRecorded(State(), upstream)
      ensures forall i :: 0 <= i < |streams| ==>
        streamWasFull[i] == (old(streamWasFull)[i] && !(i in toGrow && old(streams[i].State().IsFull())))
    {
      hide AllRecorded, Recorded, Resizing;
      var remaining := toGrow;
      while remaining != {}
        invariant remaining <= toGrow && |streamWasFull| == |streams|
        invariant forall i :: 0 <= i < |streams| ==>
          streams[i].State() == if i in toGrow - remaining then Grown(old(streams[i].State()))
                                else old(streams[i].State())
        invariant AllRecorded(State(), upstream)
        invariant forall i :: 0 <= i < |streams| ==>
          streamWasFull[i] == (old(streamWasFull)[i] && !(i in toGrow - remaining && old(streams[i].State().IsFull())))
      {
        var i :| i in remaining;
        remaining := remaining - {i};
        ghost var before := State();
        RecordedAt(before, upstream, i);
        ReadSizeAndGrow(i, streams[i], upstream[i], activeNodes);
        UpdatedKeepsRecorded(before, i, false, upstream, calculators);
      }
    }

    /** Breaks a deadlock: reports each full stream that may grow as an error, or
        makes room in it. True if there was one. */
    method UnthrottleSources(streams: seq<InputStreamManager>, upstream: seq<set<nat>>, outputs: set<nat>,
                             reportDeadlock: bool, activeNodes: set<nat>)
      returns (did: bool, errors: set<nat>)
      requires |streams| == |upstream| == |streamWasFull| && Distinct(streams)
      requires AllRecorded(State(), upstream)
      requires forall i :: i in MayGrow(fullInputStreams, |fullInputStreams|, outputs) ==> i < |streams|
      modifies this, streams
      ensures did <==> MayGrow(old(fullInputStreams), |old(fullInputStreams)|, outputs) != {}
      ensures errors == if reportDeadlock then MayGrow(old(fullInputStreams), |old(fullInputStreams)|, outputs) else {}
      ensures forall i :: 0 <= i < |streams| ==>
        streams[i].State() ==
        if !reportDeadlock && i in MayGrow(old(fullInputStreams), |old(fullInputStreams)|, outputs)
        then Grown(old(streams[i].State())) else old(streams[i].State())
      ensures reportDeadlock ==> State() == old(State())
      ensures |streamWasFull| == |streams| && AllRecorded(State(), upstream)
      ensures !reportDeadlock ==> forall i :: 0 <= i < |streams| ==>
        streamWasFull[i] == (old(streamWasFull)[i]
          && !(i in MayGrow(old(fullInputStreams), |old(fullInputStreams)|, outputs)
             && old(streams[i].State().IsFull())))
    {
      var fullStreams := FullStreams(outputs);
      did := fullStreams != {};
      errors := if reportDeadlock then fullStreams else {};
      if !reportDeadlock {
        GrowAll(fullStreams, streams, upstream, activeNodes);
      }
    }
  }

  predicate Distinct(streams: seq<InputStreamManager>) {
    forall i, j :: 0 <= i < j < |streams| ==> streams[i] != streams[j]
  }

  ghost predicate AllRecorded(b: Bookkeeping, upstream: seq<set<nat>>)
    requires |upstream| == |b.wasFull|
  {
    forall i :: 0 <= i < |upstream| ==> Recorded(b, i, upstream[i])
  }

  function Grown(s: StreamState): StreamState {
    Resizing(s, |s.queue| + 1).state
  }

  /** A grown stream has room for one packet, and is full with it. */
  lemma GrownHasRoomForOne(s: StreamState, p: Packet)
    ensures !Grown(s).IsFull() && AppendAll(Grown(s), [p]).IsFull()
    ensures Grown(s).queue == s.queue && Grown(s).bound == s.bound && Grown(s).closed == s.closed
  {
  }

  /** The streams recorded as full at the first `n` nodes, except graph outputs. */
  function MayGrow(full: seq<set<nat>>, n: nat, outputs: set<nat>): set<nat>
    requires n <= |full|
  {
    if n == 0 then {} else MayGrow(full, n - 1, outputs) + (full[n - 1] - outputs)
  }

  lemma RecordedAt(b: Bookkeeping, upstream: seq<set<nat>>, i: nat)
    requires i < |upstream| == |b.wasFull| && AllRecorded(b, upstream)
    ensures Recorded(b, i, upstream[i])
  {
  }

  lemma UpdatedKeepsRecorded(b: Bookkeeping, s: nat, isFull: bool, upstream: seq<set<nat>>, calculators: nat)
    requires s < |b.wasFull| == |upstream| && AllRecorded(b, upstream)
    ensures AllRecorded(Updated(b, s, isFull, upstream[s], calculators), upstream)
  {
  }

  lemma {:induction false} MayGrowIsExact(full: seq<set<nat>>, n: nat, outputs: set<nat>, i: nat)
    requires n <= |full|
    ensures i in MayGrow(full, n, outputs) <==> i !in outputs && exists k :: 0 <= k < n && i in full[k]
  {
    if n > 0 {
      MayGrowIsExact(full, n - 1, outputs, i);
    }
  }

  /** The streams recorded as full that have room by now. */
  function Stale(wasFull: seq<bool>, isFull: seq<bool>): set<nat>
    requires |wasFull| == |isFull|
  {
    set i | 0 <= i < |wasFull| && wasFull[i] && !isFull[i]
  }

  /** What UnthrottleSources leaves recorded, given which streams are full: the graph
      output streams, and those whose record was stale, for which no callback is asked. */
  lemma UnthrottlingReleases(before: Bookkeeping, after: Bookkeeping, isFull: seq<bool>, upstream: seq<set<nat>>,
                             outputs: set<nat>)
    requires |before.wasFull| == |after.wasFull| == |isFull| == |upstream|
    requires AllRecorded(before, upstream) && AllRecorded(after, upstream)
    requires |before.full| == |after.full|
    requires forall k, i :: 0 <= k < |after.full| && i in before.full[k] + after.full[k] ==> i < |upstream|
    requires forall i :: 0 <= i < |upstream| ==>
      after.wasFull[i] == (before.wasFull[i] && !(i in MayGrow(before.full, |before.full|, outputs) && isFull[i]))
    ensures forall k :: 0 <= k < |after.full| ==>
            after.full[k] == before.full[k] * (outputs + Stale(before.wasFull, isFull))
  {
    var kept := outputs + Stale(before.wasFull, isFull);
    forall k: nat, i: nat | k < |after.full| && i < |upstream|
      ensures i in after.full[k] <==> i in before.full[k] * kept
    {
      assert Recorded(after, i, upstream[i]) && Recorded(before, i, upstream[i]);
      MayGrowIsExact(before.full, |before.full|, outputs, i);
    }
    forall k | 0 <= k < |after.full| ensures after.full[k] == before.full[k] * kept {
      assert forall i :: i in after.full[k] ==> i in before.full[k] + after.full[k];
      assert forall i :: i in before.full[k] ==> i in before.full[k] + after.full[k];
    }
  }

  // ----- All streams and their callbacks -----

  /** `owed[i]` counts callbacks of stream `i` that are still to run; `upstream[i]`
      holds the source nodes and graph inputs that feed it. */
  datatype System = System(
    b: Bookkeeping,
    streams: seq<StreamState>,
    owed: seq<nat>,
    upstream: seq<set<nat>>,
    calculators: nat)

  datatype Event = StreamOp(i: nat, packetType: PacketType, op: Op) | Update(i: nat)

  /** The effect of an operation on a stream, with its status and whether it calls
      for a callback. */
  function Effect(packetType: PacketType, s: StreamState, op: Op): (StreamState, Status, bool) {
    match op
    case Add(packets) => var o := Adding(packetType, s, packets); (o.state, o.status, o.callback)
    case SetBound(bound) => var o := SettingBound(s, bound); (o.state, o.status, o.callback)
    case Pop(t) => var r := Popping(s, t); (r, Ok, s.IsFull() && !r.IsFull())
    case Close => (Closing(s), Ok, false)
    case Resize(size) => var o := Resizing(s, size); (o.state, Ok, o.callback)
  }

  predicate Possible(n: System, e: Event) {
    && |n.streams| == |n.owed| == |n.upstream| == |n.b.wasFull|
    && e.i < |n.streams|
    && match e
       case StreamOp(i, packetType, op) => Effect(packetType, n.streams[i], op).1 == Ok
       case Update(i) => n.owed[i] > 0
  }

  function Next(n: System, e: Event): System
    requires Possible(n, e)
  {
    match e
    case StreamOp(i, packetType, op) =>
      var (s, _, callback) := Effect(packetType, n.streams[i], op);
      n.(streams := n.streams[i := s], owed := n.owed[i := n.owed[i] + if callback then 1 else 0])
    case Update(i) =>
      n.(b := Updated(n.b, i, n.streams[i].IsFull(), n.upstream[i], n.calculators), owed := n.owed[i := n.owed[i] - 1])
  }

  /** A call that succeeds asks for a callback exactly when fullness changed. */
  lemma CallbackIffFullnessChanges(packetType: PacketType, s: StreamState, op: Op)
    requires Effect(packetType, s, op).1 == Ok
    ensures Effect(packetType, s, op).2 <==> Effect(packetType, s, op).0.IsFull() != s.IsFull()
  {
  }

  ghost predicate Inv(n: System) {
    && |n.streams| == |n.owed| == |n.upstream| == |n.b.wasFull|
    && AllRecorded(n.b, n.upstream)
    && (forall k :: 0 <= k < |n.b.full| ==> forall s :: s in n.b.full[k] ==> s < |n.streams|)
    && (forall i :: 0 <= i < |n.streams| ==> n.b.wasFull[i] == n.streams[i].IsFull() || n.owed[i] > 0)
    && n.b.throttledInputs == CountThrottled(n.b.full, n.calculators, |n.b.full|)
  }

  predicate SameGraph(n: System, r: System) {
    |r.streams| == |n.streams| && r.upstream == n.upstream && r.calculators == n.calculators && |r.b.full| == |n.b.full|
  }

  lemma NextKeepsInv(n: System, e: Event)
    requires Inv(n) && Possible(n, e)
    ensures Inv(Next(n, e)) && SameGraph(n, Next(n, e))
  {
    if e.StreamOp? {
      CallbackIffFullnessChanges(e.packetType, n.streams[e.i], e.op);
    }
    if e.Update? {
      UpdatedKeepsRecorded(n.b, e.i, n.streams[e.i].IsFull(), n.upstream, n.calculators);
    }
  }

  ghost predicate Execution(n: System, events: seq<Event>)
    decreases |events|
  {
    events == [] || (Possible(n, events[0]) && Execution(Next(n, events[0]), events[1..]))
  }

  ghost function End(n: System, events: seq<Event>): System
    requires Execution(n, events)
    decreases |events|
  {
    if events == [] then n else End(Next(n, events[0]), events[1..])
  }

  /** A run begins with empty streams and nothing recorded. */
  function Start(sizes: seq<int>, upstream: seq<set<nat>>, calculators: nat, nodes: nat): System {
    System(Bookkeeping(seq(|sizes|, _ => false), seq(nodes, _ => {}), 0),
           seq(|sizes|, i requires 0 <= i < |sizes| => Prepared(sizes[i])),
           seq(|sizes|, _ => 0), upstream, calculators)
  }

  lemma {:induction false} NothingThrottled(full: seq<set<nat>>, calculators: nat, n: nat)
    requires n <= |full| && forall k :: 0 <= k < |full| ==> full[k] == {}
    ensures CountThrottled(full, calculators, n) == 0
  {
    if n > 0 {
      NothingThrottled(full, calculators, n - 1);
    }
  }

  lemma {:induction false} ExecutionKeepsInv(n: System, events: seq<Event>)
    requires Inv(n) && Execution(n, events)
    ensures Inv(End(n, events)) && SameGraph(n, End(n, events))
    decreases |events|
  {
    if events != [] {
      NextKeepsInv(n, events[0]);
      ExecutionKeepsInv(Next(n, events[0]), events[1..]);
    }
  }

  /** In every interleaving of stream operations and late callbacks, a stream is
      recorded at all of its upstream nodes or at none, as last reported; the count
      of throttled graph inputs is exact; and once its callbacks have run, what was
      last reported is whether the stream is full. */
  lemma BookkeepingIsExact(sizes: seq<int>, upstream: seq<set<nat>>, calculators: nat, nodes: nat, events: seq<Event>)
    requires |upstream| == |sizes| && forall i, k :: 0 <= i < |sizes| && k in upstream[i] ==> k < nodes
    requires forall i :: 0 <= i < |sizes| ==> sizes[i] != 0
    requires Execution(Start(sizes, upstream, calculators, nodes), events)
    ensures var n := End(Start(sizes, upstream, calculators, nodes), events);
            && |n.streams| == |n.b.wasFull| == |n.owed| == |sizes| && |n.b.full| == nodes
            && (forall i, k :: 0 <= i < |sizes| && 0 <= k < nodes ==> (i in n.b.full[k] <==>
              k in upstream[i] && n.b.wasFull[i]))
            && n.b.throttledInputs == CountThrottled(n.b.full, calculators, nodes)
            && (forall i :: 0 <= i < |sizes| && n.owed[i] == 0 ==> n.b.wasFull[i] == n.streams[i].IsFull())
  {
    var start := Start(sizes, upstream, calculators, nodes);
    NothingThrottled(start.b.full, calculators, nodes);
    assert Inv(start);
    ExecutionKeepsInv(start, events);
    var n := End(start, events);
    forall i, k | 0 <= i < |sizes| && 0 <= k < nodes ensures i in n.b.full[k] <==> k in upstream[i] && n.b.wasFull[i] {
      assert Recorded(n.b, i, n.upstream[i]);
    }
  }

  predicate IsNodeThrottled(b: Bookkeeping, node: nat, maxQueueSize: int)
    requires node < |b.full|
  {
    maxQueueSize != -1 && b.full[node] != {}
  }

  /** With no callback owed, a node is throttled exactly if some stream it feeds is full. */
  lemma ThrottledIffFullDownstream(n: System, node: nat, maxQueueSize: int)
    requires Inv(n) && node < |n.b.full| && maxQueueSize != -1
    requires forall i :: 0 <= i < |n.owed| ==> n.owed[i] == 0
    ensures IsNodeThrottled(n.b, node, maxQueueSize) <==>
            exists i :: 0 <= i < |n.streams| && node in n.upstream[i] && n.streams[i].IsFull()
  {
    forall i: nat | i < |n.streams| ensures i in n.b.full[node] <==> node in n.upstream[i] && n.streams[i].IsFull() {
      assert Recorded(n.b, i, n.upstream[i]);
    }
    if n.b.full[node] != {} {
      var i :| i in n.b.full[node];
      assert i < |n.streams|;
    }
  }

  function Fullness(streams: seq<StreamState>): (r: seq<bool>)
    ensures |r| == |streams| && forall i :: 0 <= i < |r| ==> r[i] == streams[i].IsFull()
  {
    seq(|streams|, i requires 0 <= i < |streams| => streams[i].IsFull())
  }

  /** A record is stale only while a callback is owed. */
  lemma StaleMeansOwed(n: System, i: nat)
    requires Inv(n) && i in Stale(n.b.wasFull, Fullness(n.streams))
    ensures n.owed[i] > 0
  {
  }

  const ANY_PACKET := Packet(0, 0, 0)

  /** A stream with room for one packet, after a packet filled it and was popped, and
      before the callback for the pop. */
  function Drained(): System {
    System(Bookkeeping([true], [{0}], 0), [StreamState([], 1, 1, 0, false, 1)], [1], [{0}], 1)
  }

  lemma FillingStep()
    ensures Effect(AnyType, Prepared(1), Add([ANY_PACKET])) ==
            (StreamState([ANY_PACKET], 1, 1, UNSTARTED, false, 1), Ok, true)
  {
    var s, packets := Prepared(1), [ANY_PACKET];
    assert packets[..0] == [] && packets[..1] == packets && AppendAll(s, []) == s;
    assert AcceptedFrom(AnyType, s, packets, 1) == 1 && Taken(AnyType, s, packets) == 1;
    assert AppendAll(s, packets) == StreamState([ANY_PACKET], 1, 1, UNSTARTED, false, 1);
  }

  lemma DrainingStep()
    ensures Effect(AnyType, StreamState([ANY_PACKET], 1, 1, UNSTARTED, false, 1), Pop(0))
      == (StreamState([], 1, 1, 0, false, 1), Ok, true)
  {
    assert ReachedFrom([ANY_PACKET], 0, 1) == 1 && Reached([ANY_PACKET], 0) == 1;
  }

  /** A stale record can be reached: the stream may grow, growing it asks for no
      callback, and so the record stays. */
  lemma StaleRecordStays() returns (events: seq<Event>)
    ensures Execution(Start([1], [{0}], 1, 1), events) && End(Start([1], [{0}], 1, 1), events) == Drained()
    ensures MayGrow(Drained().b.full, 1, {}) == {0} && Stale(Drained().b.wasFull, Fullness(Drained().streams)) == {0}
    ensures !Resizing(Drained().streams[0], |Drained().streams[0].queue| + 1).callback
  {
    var add, pop := StreamOp(0, AnyType, Add([ANY_PACKET])), StreamOp(0, AnyType, Pop(0));
    var n0 := System(Bookkeeping([false], [{}], 0), [Prepared(1)], [0], [{0}], 1);
    var n1 := n0.(streams := [StreamState([ANY_PACKET], 1, 1, UNSTARTED, false, 1)], owed := [1]);
    var n2 := n1.(b := Bookkeeping([true], [{0}], 0), owed := [0]);
    assert Start([1], [{0}], 1, 1) == n0;
    assert Possible(n0, add) && Next(n0, add) == n1 by {
      FillingStep();
    }
    assert Possible(n1, Update(0)) && Next(n1, Update(0)) == n2 by {
      UpdateStep();
    }
    assert Possible(n2, pop) && Next(n2, pop) == Drained() by {
      DrainingStep();
    }
    events := [add] + ([Update(0)] + ([pop] + []));
    Steps(n2, pop, []);
    Steps(n1, Update(0), [pop] + []);
    Steps(n0, add, [Update(0)] + ([pop] + []));
    assert MayGrow([{0}], 0, {}) == {};
  }

  lemma UpdateStep()
    ensures Updated(Bookkeeping([false], [{}], 0), 0, true, {0}, 1) == Bookkeeping([true], [{0}], 0)
  {
    var none: set<nat> := {};
    assert Marked(none, 0, true) == {0};
    assert MarkedAt([none], {0}, 0, true) == [{0}];
  }

  lemma Steps(n: System, e: Event, events: seq<Event>)
    requires Possible(n, e) && Execution(Next(n, e), events)
    ensures Execution(n, [e] + events) && End(n, [e] + events) == End(Next(n, e), events)
  {
    assert ([e] + events)[1..] == events;
  }
}
