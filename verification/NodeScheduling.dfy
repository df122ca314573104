/** How a non-source node is scheduled: any thread may report a readiness change or
    the end of an invocation, one of them becomes the scheduling thread, and no
    change is lost. Every critical section of status_mutex_ is one step. */
module NodeScheduling {
  import opened Results
  import opened Timestamps
  import opened InputStreams
  import opened SyncSets

  datatype NodeStatus = Prepared | Opened | Closed

  datatype SchedulingState = Idle | Scheduling | SchedulingPending

  /** The fields that status_mutex_ guards. `aborted` says that a CHECK failed. */
  datatype Control = Control(
    status: NodeStatus,
    scheduling: SchedulingState,
    inFlight: int,
    maxInFlight: nat,
    aborted: bool)

  /** The first section of CheckIfBecameReady, and whether its thread goes on into
      the scheduling loop. */
  function Checking(c: Control): (Control, bool) {
    if !c.status.Opened? then (c, false)
    else if c.scheduling.Idle? && c.inFlight < c.maxInFlight then (c.(scheduling := Scheduling), true)
    else (if c.scheduling.Scheduling? then c.(scheduling := SchedulingPending) else c, false)
  }

  function Ending(c: Control): (Control, bool) {
    if !c.status.Opened? then (c, false)
    else
      var d := c.(inFlight := c.inFlight - 1, aborted := c.aborted || c.inFlight - 1 < 0);
      match c.scheduling
      case Idle => (d.(scheduling := Scheduling), true)
      case _ => (d.(scheduling := SchedulingPending), false)
  }

  /** The first section of the loop, and the allowance of its first iteration. */
  function Entering(c: Control): (Control, Option<int>) {
    if c.status.Closed? then (c.(scheduling := Idle), None) else (c, Some(c.maxInFlight - c.inFlight))
  }

  /** The section at the end of each iteration, and the allowance of the next one. */
  function Repeating(c: Control): (Control, Option<int>) {
    if c.scheduling.SchedulingPending? && c.inFlight < c.maxInFlight then
      (c.(scheduling := Scheduling), Some(c.maxInFlight - c.inFlight))
    else (c.(scheduling := Idle), None)
  }

  function Beginning(c: Control): (Control, bool) {
    if c.inFlight < c.maxInFlight then (c.(inFlight := c.inFlight + 1), true) else (c, false)
  }

  class CalculatorNode {
    var status: NodeStatus
    var schedulingState: SchedulingState
    var currentInFlight: int
    const maxInFlight: nat
    ghost var aborted: bool

    ghost function State(): Control
      reads this
    {
      Control(status, schedulingState, currentInFlight, maxInFlight, aborted)
    }

    method CheckIfBecameReady() returns (enter: bool)
      modifies this
      ensures (State(), enter) == Checking(old(State()))
    {
      if status != Opened {
        return false;
      }
      if schedulingState == Idle && currentInFlight < maxInFlight {
        schedulingState := Scheduling;
        return true;
      }
      if schedulingState == Scheduling {
        schedulingState := SchedulingPending;
      }
      return false;
    }

    method EndScheduling() returns (enter: bool)
      modifies this
      ensures (State(), enter) == Ending(old(State()))
    {
      if status != Opened {
        return false;
      }
      currentInFlight := currentInFlight - 1;
      aborted := aborted || currentInFlight < 0;
      if schedulingState == Scheduling {
        schedulingState := SchedulingPending;
        return false;
      } else if schedulingState == SchedulingPending {
        return false;
      }
      schedulingState := Scheduling;
      return true;
    }

    method EnterSchedulingLoop() returns (allowance: Option<int>)
      modifies this
      ensures (State(), allowance) == Entering(old(State()))
    {
      if status == Closed {
        schedulingState := Idle;
        return None;
      }
      return Some(maxInFlight - currentInFlight);
    }

    method RepeatSchedulingLoop() returns (allowance: Option<int>)
      modifies this
      ensures (State(), allowance) == Repeating(old(State()))
    {
      if schedulingState == SchedulingPending && currentInFlight < maxInFlight {
        allowance := Some(maxInFlight - currentInFlight);
        schedulingState := Scheduling;
      } else {
        schedulingState := Idle;
        allowance := None;
      }
    }

    method TryToBeginScheduling() returns (begun: bool)
      modifies this
      ensures (State(), begun) == Beginning(old(State()))
    {
      if currentInFlight < maxInFlight {
        currentInFlight := currentInFlight + 1;
        return true;
      }
      return false;
    }
  }

  // ----- All threads together -----

  /** Where a call of SchedulingLoop is: before its first section, reading the
      streams, popping them, holding a filled context, or at the last section. */
  datatype Loop =
    | Entry
    | Reading(allowance: int, samples: seq<Sample>)
    | Filling(allowance: int, t: Timestamp, popped: nat)
    | Filled(allowance: int)
    | Bottom

  /** `owedChecks` counts notified threads that have yet to run CheckIfBecameReady;
      `deferred` says that the last evaluation left the close to a later one. */
  datatype System = System(
    c: Control,
    streams: seq<StreamState>,
    types: seq<PacketType>,
    processTimestamps: bool,
    lastProcessed: Timestamp,
    closePrepared: bool,
    deferred: bool,
    owedChecks: nat,
    loops: seq<Loop>,
    queued: nat,
    running: nat)

  datatype Event =
    | Produce(i: nat, op: Op)
    | NodeOpened
    | Check
    | EnterLoop(k: nat)
    | ReadNext(k: nat)
    | Decide(k: nat, activeContexts: bool)
    | PopNext(k: nat)
    | PushContext(k: nat, batchComplete: bool)
    | EndOfLoop(k: nat)
    | StartTask
    | FinishTask
    | CloseStream(i: nat)
    | MarkClosed

  function ProducerOutcome(packetType: PacketType, s: StreamState, op: Op): Outcome
    requires IsProducerOp(op)
  {
    match op
    case Add(packets) => Adding(packetType, s, packets)
    case SetBound(bound) => SettingBound(s, bound)
    case Resize(size) => Resizing(s, size)
  }

  /** What can happen in a run without errors. A parallel context is in use only while
      an invocation is in flight, and is in use while its invocation is queued, as
      NodePropagation derives from the contexts themselves. The
      invocation at Done, once taken from the queue, closes the node's streams and
      then the node. */
  predicate Possible(n: System, e: Event) {
    match e
    case Produce(i, op) =>
      && i < |n.streams| == |n.types| && IsProducerOp(op)
      && ProducerOutcome(n.types[i], n.streams[i], op).status == Ok
    case NodeOpened => n.c.status.Prepared?
    case Check => n.owedChecks > 0
    case EnterLoop(k) => k < |n.loops| && n.loops[k].Entry?
    case ReadNext(k) => k < |n.loops| && n.loops[k].Reading? && |n.loops[k].samples| < |n.streams|
    case Decide(k, activeContexts) =>
      && k < |n.loops| && n.loops[k].Reading? && |n.loops[k].samples| == |n.streams|
      && (activeContexts ==> n.c.inFlight > 0)
      && (n.queued > 0 && !n.closePrepared ==> activeContexts)
    case PopNext(k) => k < |n.loops| && n.loops[k].Filling? && n.loops[k].popped < |n.streams|
    case PushContext(k, _) => k < |n.loops| && n.loops[k].Filled?
    case EndOfLoop(k) => k < |n.loops| && n.loops[k].Bottom?
    case StartTask => n.queued > 0
    case FinishTask => n.running > 0
    case CloseStream(i) => n.closePrepared && n.queued == 0 && n.running > 0 && i < |n.streams|
    case MarkClosed => n.closePrepared && n.queued == 0 && n.running > 0 && n.c.status.Opened?
  }

  function Views(streams: seq<StreamState>): (r: seq<Sample>)
    ensures |r| == |streams| && forall i :: 0 <= i < |r| ==> r[i] == streams[i].View()
  {
    seq(|streams|, i requires 0 <= i < |streams| => streams[i].View())
  }

  function Without(loops: seq<Loop>, k: nat): seq<Loop>
    requires k < |loops|
  {
    loops[..k] + loops[k + 1..]
  }

  /** A section that may make its thread a scheduling thread. */
  function Entered(n: System, result: (Control, bool)): System {
    n.(c := result.0, loops := if result.1 then n.loops + [Entry] else n.loops)
  }

  /** The schedule callback: the item goes to the scheduler queue, unless the node
      refuses it, where the source aborts. */
  function Scheduled(n: System): System {
    var (c, begun) := Beginning(n.c);
    if begun then n.(c := c, queued := n.queued + 1) else n.(c := c.(aborted := true))
  }

  /** A section of loop `k` that yields an allowance or leaves the loop. */
  function Resumed(n: System, k: nat, result: (Control, Option<int>)): System
    requires k < |n.loops|
  {
    match result.1
    case Some(allowance) => n.(c := result.0, loops := n.loops[k := Reading(allowance, [])])
    case None => n.(c := result.0, loops := Without(n.loops, k))
  }

  function Decided(n: System, k: nat, activeContexts: bool): System
    requires Possible(n, Decide(k, activeContexts))
  {
    var l := n.loops[k];
    var d := DecisionOf(l.samples, n.processTimestamps, n.lastProcessed);
    var m := n.(lastProcessed := d.lastProcessed);
    match d.readiness
    case NotReady => m.(loops := m.loops[k := Bottom])
    case ReadyForProcess => m.(loops := m.loops[k := Filling(l.allowance, d.minStreamTimestamp, 0)])
    case ReadyForClose =>
      var r := if activeContexts || m.closePrepared then m else Scheduled(m.(closePrepared := true));
      r.(loops := m.loops[k := Bottom], deferred := activeContexts)
  }

  function Next(n: System, e: Event): System
    requires Possible(n, e)
  {
    match e
    case Produce(i, op) =>
      var o := ProducerOutcome(n.types[i], n.streams[i], op);
      n.(streams := n.streams[i := o.state], owedChecks := if o.notify then n.owedChecks + 1 else n.owedChecks)
    case NodeOpened => n.(c := n.c.(status := Opened), owedChecks := n.owedChecks + 1)
    case Check => Entered(n.(owedChecks := n.owedChecks - 1), Checking(n.c))
    case EnterLoop(k) => Resumed(n, k, Entering(n.c))
    case ReadNext(k) =>
      var l := n.loops[k];
      n.(loops := n.loops[k := l.(samples := l.samples + [n.streams[|l.samples|].View()])])
    case Decide(k, activeContexts) => Decided(n, k, activeContexts)
    case PopNext(k) =>
      var l := n.loops[k];
      var next := if l.popped + 1 == |n.streams| then Filled(l.allowance) else l.(popped := l.popped + 1);
      n.(streams := n.streams[l.popped := Popping(n.streams[l.popped], l.t)], loops := n.loops[k := next])
    case PushContext(k, batchComplete) =>
      var a := n.loops[k].allowance - (if batchComplete then 1 else 0);
      (if batchComplete then Scheduled(n) else n).(loops := n.loops[k := if a > 0 then Reading(a, []) else Bottom])
    case EndOfLoop(k) => Resumed(n, k, Repeating(n.c))
    case StartTask => n.(queued := n.queued - 1, running := n.running + 1)
    case FinishTask => Entered(n.(running := n.running - 1), Ending(n.c))
    case CloseStream(i) => n.(streams := n.streams[i := Closing(n.streams[i])])
    case MarkClosed => n.(c := n.c.(status := Closed))
  }

  // ----- The invariant -----

  /** An iteration never starts more invocations than it was allowed to. */
  predicate Budget(c: Control, allowance: int) {
    !c.status.Closed? ==>
      && 0 < allowance && c.inFlight + allowance <= c.maxInFlight
      && (c.scheduling.Scheduling? ==> c.inFlight + allowance == c.maxInFlight)
  }

  predicate Ended(s: StreamState) {
    s.queue == [] && s.bound >= ONE_OVER_POST_STREAM
  }

  ghost predicate AllEnded(streams: seq<StreamState>) {
    forall i :: 0 <= i < |streams| ==> Ended(streams[i])
  }

  ghost predicate PacketsAllowed(s: StreamState) {
    forall k :: 0 <= k < |s.queue| ==> s.queue[k].timestamp <= POST_STREAM
  }

  predicate SampleEnds(sample: Sample) {
    sample.timestamp >= ONE_OVER_POST_STREAM
  }

  /** Evaluating the streams as they are now would find nothing to schedule. */
  predicate NothingToSchedule(n: System) {
    match DecisionOf(Views(n.streams), n.processTimestamps, n.lastProcessed).readiness
    case NotReady => true
    case ReadyForProcess => false
    case ReadyForClose => n.closePrepared || (n.deferred && n.c.inFlight > 0)
  }

  /** Some step still to come will look at the streams, or no capacity is left. */
  predicate Covered(n: System) {
    NothingToSchedule(n) || n.c.inFlight == n.c.maxInFlight || n.owedChecks > 0 || n.c.scheduling.SchedulingPending?
  }

  predicate UpToDate(samples: seq<Sample>, streams: seq<StreamState>)
    requires |samples| <= |streams|
  {
    samples == Views(streams)[..|samples|]
  }

  ghost predicate LoopInv(n: System, l: Loop) {
    match l
    case Entry => !n.c.status.Closed? ==> n.c.inFlight < n.c.maxInFlight
    case Reading(a, samples) =>
      && |samples| <= |n.streams| && Budget(n.c, a)
      && (n.owedChecks > 0 || n.c.scheduling.SchedulingPending? || n.closePrepared || UpToDate(samples, n.streams))
      && (forall i :: 0 <= i < |samples| && SampleEnds(samples[i]) ==> Ended(n.streams[i]))
      && (n.closePrepared ==> forall i :: 0 <= i < |samples| ==> SampleEnds(samples[i]))
    case Filling(a, t, popped) => Budget(n.c, a) && popped < |n.streams| && !n.closePrepared
    case Filled(a) => Budget(n.c, a) && !n.closePrepared
    case Bottom => n.c.status.Opened? ==> Covered(n)
  }

  ghost predicate CountsInv(n: System) {
    && !n.c.aborted && n.c.maxInFlight > 0
    && 0 < |n.streams| == |n.types|
    && |n.loops| == (if n.c.scheduling.Idle? then 0 else 1)
    && (!n.c.status.Closed? ==> n.c.inFlight == n.queued + n.running && n.c.inFlight <= n.c.maxInFlight)
    && (n.c.status.Prepared? ==> n.loops == [] && n.queued + n.running == 0)
    && (n.closePrepared ==> n.queued <= 1)
    && (n.c.status.Closed? ==> n.closePrepared && n.queued == 0)
  }

  ghost predicate StreamsInv(n: System) {
    && (forall i :: 0 <= i < |n.streams| ==> PacketsAllowed(n.streams[i]))
    && (n.closePrepared ==> AllEnded(n.streams))
  }

  ghost predicate Inv(n: System) {
    && CountsInv(n) && StreamsInv(n)
    && (forall k :: 0 <= k < |n.loops| ==> LoopInv(n, n.loops[k]))
    && (n.c.scheduling.Idle? && n.c.status.Opened? ==> Covered(n))
  }

  lemma EndedStreamsMeanClose(samples: seq<Sample>, processTimestamps: bool, last: Timestamp)
    ensures DecisionOf(samples, processTimestamps, last).readiness.ReadyForClose? <==>
            forall i :: 0 <= i < |samples| ==> SampleEnds(samples[i])
  {
    MinimaAreReached(samples, |samples|);
    forall i | 0 <= i < |samples|
      ensures if samples[i].empty then MinBound(samples, |samples|) <= samples[i].timestamp
              else MinPacket(samples, |samples|) <= samples[i].timestamp
    {
      MinimaAreLeast(samples, |samples|, i);
    }
  }

  lemma ClosingLeavesNothing(n: System)
    requires AllEnded(n.streams) && n.closePrepared
    ensures NothingToSchedule(n)
  {
    EndedStreamsMeanClose(Views(n.streams), n.processTimestamps, n.lastProcessed);
  }

  /** A successful call of a producer: an unseen change is announced, an ended
      stream stays ended. */
  lemma ProducerEffect(packetType: PacketType, s: StreamState, op: Op)
    requires IsProducerOp(op) && PacketsAllowed(s) && ProducerOutcome(packetType, s, op).status == Ok
    ensures var o := ProducerOutcome(packetType, s, op);
            && PacketsAllowed(o.state) && (Ended(s) ==> Ended(o.state))
            && (o.notify || o.state.View() == s.View())
  {
    match op
    case Add(packets) =>
      NotifyIffViewChanges(packetType, s, packets, s.bound);
      if !s.closed {
        AcceptedAreAllowed(packetType, s, packets);
      }
      if Ended(s) {
        EndedStreamTakesNothing(packetType, s, packets);
      }
    case SetBound(bound) => NotifyIffViewChanges(packetType, s, [], bound);
    case Resize(_) =>
  }

  lemma AcceptedAreAllowed(packetType: PacketType, s: StreamState, packets: seq<Packet>)
    requires PacketsAllowed(s) && !s.closed
    ensures PacketsAllowed(AppendAll(s, packets[..Taken(packetType, s, packets)]))
  {
    forall k | 0 <= k < Taken(packetType, s, packets) ensures packets[k].timestamp <= POST_STREAM {
      TakenIsLongestAccepted(packetType, s, packets, 0, k);
    }
  }

  /** One producer's call, whatever the scheduling thread is doing. */
  lemma ProduceKeepsInv(n: System, i: nat, op: Op)
    requires Inv(n) && Possible(n, Produce(i, op))
    ensures Inv(Next(n, Produce(i, op)))
  {
    ProducerEffect(n.types[i], n.streams[i], op);
    var r := Next(n, Produce(i, op));
    if r.owedChecks == n.owedChecks {
      assert Views(r.streams) == Views(n.streams);
    }
  }

  lemma CheckKeepsInv(n: System)
    requires Inv(n) && Possible(n, Check)
    ensures Inv(Next(n, Check))
  {
  }

  lemma FinishKeepsInv(n: System)
    requires Inv(n) && Possible(n, FinishTask)
    ensures Inv(Next(n, FinishTask))
  {
  }

  lemma CloseStreamKeepsInv(n: System, i: nat)
    requires Inv(n) && Possible(n, CloseStream(i))
    ensures Inv(Next(n, CloseStream(i)))
  {
    var r := Next(n, CloseStream(i));
    ClosingLeavesNothing(r);
  }

  /** Although the streams were read one at a time, what an evaluation decides is
      true of the streams now, unless a check is still to come. */
  lemma DecisionIsCurrent(n: System, l: Loop)
    requires LoopInv(n, l) && l.Reading? && |l.samples| == |n.streams| && StreamsInv(n)
    ensures var d := DecisionOf(l.samples, n.processTimestamps, n.lastProcessed).readiness;
            && (d.ReadyForClose? ==> AllEnded(n.streams))
            && (n.closePrepared ==> d.ReadyForClose?)
            && (d.NotReady? ==> n.owedChecks > 0 || n.c.scheduling.SchedulingPending? || NothingToSchedule(n))
  {
    EndedStreamsMeanClose(l.samples, n.processTimestamps, n.lastProcessed);
    assert Views(n.streams)[..|l.samples|] == Views(n.streams);
  }

  lemma DecideCloseKeepsInv(n: System, k: nat, activeContexts: bool)
    requires Inv(n) && Possible(n, Decide(k, activeContexts)) && AllEnded(n.streams)
    requires DecisionOf(n.loops[k].samples, n.processTimestamps, n.lastProcessed).readiness.ReadyForClose?
    ensures Inv(Next(n, Decide(k, activeContexts)))
  {
    hide DecisionOf;
    var r := Next(n, Decide(k, activeContexts));
    assert LoopInv(n, n.loops[k]);
    EndedStreamsMeanClose(Views(r.streams), r.processTimestamps, r.lastProcessed);
  }

  lemma DecideKeepsInv(n: System, k: nat, activeContexts: bool)
    requires Inv(n) && Possible(n, Decide(k, activeContexts))
    ensures Inv(Next(n, Decide(k, activeContexts)))
  {
    assert LoopInv(n, n.loops[k]);
    DecisionIsCurrent(n, n.loops[k]);
    var d := DecisionOf(n.loops[k].samples, n.processTimestamps, n.lastProcessed);
    if d.readiness.ReadyForClose? {
      DecideCloseKeepsInv(n, k, activeContexts);
    } else {
      hide AllEnded;
      assert d.readiness.NotReady? ==> d.lastProcessed == n.lastProcessed;
    }
  }

  lemma EnterKeepsInv(n: System, k: nat)
    requires Inv(n) && Possible(n, EnterLoop(k))
    ensures Inv(Next(n, EnterLoop(k)))
  {
    assert LoopInv(n, n.loops[k]);
  }

  lemma ReadNextKeepsInv(n: System, k: nat)
    requires Inv(n) && Possible(n, ReadNext(k))
    ensures Inv(Next(n, ReadNext(k)))
  {
    assert LoopInv(n, n.loops[k]);
  }

  lemma PopNextKeepsInv(n: System, k: nat)
    requires Inv(n) && Possible(n, PopNext(k))
    ensures Inv(Next(n, PopNext(k)))
  {
    assert LoopInv(n, n.loops[k]);
  }

  lemma PushContextKeepsInv(n: System, k: nat, batchComplete: bool)
    requires Inv(n) && Possible(n, PushContext(k, batchComplete))
    ensures Inv(Next(n, PushContext(k, batchComplete)))
  {
  }

  lemma EndOfLoopKeepsInv(n: System, k: nat)
    requires Inv(n) && Possible(n, EndOfLoop(k))
    ensures Inv(Next(n, EndOfLoop(k)))
  {
    hide StreamsInv, NothingToSchedule;
    assert LoopInv(n, n.loops[k]);
    var r := Next(n, EndOfLoop(k));
    assert r == n.(c := r.c, loops := r.loops) && (NothingToSchedule(r) <==> NothingToSchedule(n)) by {
      NothingChanges(n, r);
    }
    assert StreamsInv(r) <==> StreamsInv(n) by {
      SameStreams(n, r);
    }
  }

  lemma SameStreams(n: System, r: System)
    requires r == n.(c := r.c, loops := r.loops)
    ensures StreamsInv(r) <==> StreamsInv(n)
  {
  }

  lemma NothingChanges(n: System, r: System)
    requires r == n.(c := r.c, loops := r.loops) && r.c.inFlight == n.c.inFlight
    ensures NothingToSchedule(r) <==> NothingToSchedule(n)
  {
    hide DecisionOf;
  }

  lemma NextKeepsInv(n: System, e: Event)
    requires Inv(n) && Possible(n, e)
    ensures Inv(Next(n, e))
  {
    hide *;
    match e
    case Produce(i, op) => ProduceKeepsInv(n, i, op);
    case NodeOpened => OpenKeepsInv(n);
    case Check => CheckKeepsInv(n);
    case EnterLoop(k) => EnterKeepsInv(n, k);
    case ReadNext(k) => ReadNextKeepsInv(n, k);
    case Decide(k, activeContexts) => DecideKeepsInv(n, k, activeContexts);
    case PopNext(k) => PopNextKeepsInv(n, k);
    case PushContext(k, batchComplete) => PushContextKeepsInv(n, k, batchComplete);
    case EndOfLoop(k) => EndOfLoopKeepsInv(n, k);
    case StartTask => StartKeepsInv(n);
    case FinishTask => FinishKeepsInv(n);
    case CloseStream(i) => CloseStreamKeepsInv(n, i);
    case MarkClosed => MarkKeepsInv(n);
  }

  lemma OpenKeepsInv(n: System)
    requires Inv(n) && Possible(n, NodeOpened)
    ensures Inv(Next(n, NodeOpened))
  {
  }

  lemma StartKeepsInv(n: System)
    requires Inv(n) && Possible(n, StartTask)
    ensures Inv(Next(n, StartTask))
  {
  }

  lemma MarkKeepsInv(n: System)
    requires Inv(n) && Possible(n, MarkClosed)
    ensures Inv(Next(n, MarkClosed))
  {
  }

  ghost predicate Execution(n: System, events: seq<Event>)
    decreases |events|
  {
    events == [] || (Possible(n, events[0]) && Execution(Next(n, events[0]), events[1..]))
  }

  ghost function End(n: System, events: seq<Event>): System
    requires Execution(n, events)
    decreases |events|
  {
    if events == [] then n else End(Next(n, events[0]), events[1..])
  }

  function Start(types: seq<PacketType>, processTimestamps: bool, maxInFlight: nat, maxQueueSize: int): System {
    System(Control(Prepared, Idle, 0, maxInFlight, false),
           seq(|types|, _ => InputStreams.Prepared(maxQueueSize)),
           types, processTimestamps, UNSET, false, false, 0, [], 0, 0)
  }

  lemma {:induction false} ExecutionKeepsInv(n: System, events: seq<Event>)
    requires Inv(n) && Execution(n, events)
    ensures Inv(End(n, events))
    decreases |events|
  {
    if events != [] {
      NextKeepsInv(n, events[0]);
      ExecutionKeepsInv(Next(n, events[0]), events[1..]);
    }
  }

  /** No readiness change is lost: when the node is open, idle and below its maximum,
      and no notified thread is still on its way, its input streams as they are now
      offer nothing to schedule. */
  lemma NoWakeupIsLost(types: seq<PacketType>, processTimestamps: bool, maxInFlight: nat, maxQueueSize: int,
          events: seq<Event>)
    requires types != [] && maxInFlight > 0
             && Execution(Start(types, processTimestamps, maxInFlight, maxQueueSize), events)
    ensures var n := End(Start(types, processTimestamps, maxInFlight, maxQueueSize), events);
            n.c.status.Opened? && n.c.scheduling.Idle? && n.c.inFlight < n.c.maxInFlight && n.owedChecks == 0
            ==> NothingToSchedule(n)
  {
    ExecutionKeepsInv(Start(types, processTimestamps, maxInFlight, maxQueueSize), events);
  }

  predicate InIteration(l: Loop) {
    l.Reading? || l.Filling? || l.Filled?
  }

  /** There is one scheduling thread exactly while the state is not idle; what is in
      flight and what its iteration may still start never exceed the maximum; and
      no CHECK fails, so a prepared invocation is never refused; and nothing is queued
      for a closed node. */
  lemma OneThreadWithinBudget(types: seq<PacketType>, processTimestamps: bool, maxInFlight: nat, maxQueueSize: int,
          events: seq<Event>)
    requires types != [] && maxInFlight > 0
             && Execution(Start(types, processTimestamps, maxInFlight, maxQueueSize), events)
    ensures var n := End(Start(types, processTimestamps, maxInFlight, maxQueueSize), events);
            && !n.c.aborted
            && |n.loops| == (if n.c.scheduling.Idle? then 0 else 1)
            && (if n.c.status.Closed? then n.queued == 0 else n.c.inFlight == n.queued + n.running <= n.c.maxInFlight)
            && (!n.c.status.Closed? ==> forall k :: 0 <= k < |n.loops| && InIteration(n.loops[k]) ==>
                  0 < n.loops[k].allowance && n.c.inFlight + n.loops[k].allowance <= n.c.maxInFlight)
  {
    ExecutionKeepsInv(Start(types, processTimestamps, maxInFlight, maxQueueSize), events);
    var n := End(Start(types, processTimestamps, maxInFlight, maxQueueSize), events);
    assert forall k :: 0 <= k < |n.loops| ==> LoopInv(n, n.loops[k]);
  }

  /** The transitions of the scheduling state: besides the four that are documented,
      a pending recheck is dropped exactly when the node is closed or at its maximum,
      where the end of an invocation will look again. */
  lemma SchedulingTransitions(n: System, e: Event)
    requires Inv(n) && Possible(n, e)
    ensures var (from, to) := (n.c.scheduling, Next(n, e).c.scheduling);
            || from == to
            || (from.Idle? && to.Scheduling? && (e.Check? || e.FinishTask?))
            || (from.Scheduling? && to.SchedulingPending? && (e.Check? || e.FinishTask?))
            || (from.SchedulingPending? && to.Scheduling? && e.EndOfLoop?)
            || (from.Scheduling? && to.Idle? && (e.EndOfLoop? || e.EnterLoop?))
            || (from.SchedulingPending? && to.Idle? && (e.EndOfLoop? || e.EnterLoop?))
    ensures n.c.scheduling.SchedulingPending? && e.EndOfLoop? ==>
            (Next(n, e).c.scheduling.Idle? <==> n.c.inFlight >= n.c.maxInFlight)
    ensures n.c.scheduling.SchedulingPending? && e.EnterLoop? ==>
            (Next(n, e).c.scheduling.Idle? <==> n.c.status.Closed?)
  {
    if e.EndOfLoop? || e.EnterLoop? {
      assert LoopInv(n, n.loops[e.k]);
    }
  }

  lemma {:induction false} ExecutionGrows(n: System, events: seq<Event>, e: Event)
    requires Execution(n, events) && Possible(End(n, events), e)
    ensures Execution(n, events + [e]) && End(n, events + [e]) == Next(End(n, events), e)
    decreases |events|
  {
    hide Possible, Next;
    if events == [] {
      assert [e][1..] == [] && Execution(Next(n, e), []);
    } else {
      ExecutionGrows(Next(n, events[0]), events[1..], e);
      assert (events + [e])[0] == events[0] && (events + [e])[1..] == events[1..] + [e];
    }
  }

  const ANY_PACKET := Packet(0, 0, 0)

  function EmptyStream(): StreamState {
    InputStreams.Prepared(-1)
  }

  /** The state of a node with one input stream and one invocation at a time. */
  function OneStream(s: StreamState, scheduling: SchedulingState, last: Timestamp, owed: nat, loops: seq<Loop>,
                     queued: nat): System {
    System(Control(Opened, scheduling, queued, 1, false), [s], [AnyType], false, last, false, false, owed, loops,
           queued, 0)
  }

  lemma PacketArrives() returns (s: StreamState)
    ensures var n, e := OneStream(EmptyStream(), Idle, UNSET, 1, [], 0), Produce(0, Add([ANY_PACKET]));
            Possible(n, e) && Next(n, e) == OneStream(s, Idle, UNSET, 2, [], 0)
    ensures s.queue == [ANY_PACKET]
  {
    assert Accepts(AnyType, EmptyStream(), ANY_PACKET);
    var o := Adding(AnyType, EmptyStream(), [ANY_PACKET]);
    assert Taken(AnyType, EmptyStream(), [ANY_PACKET]) == 1 && [ANY_PACKET][..1] == [ANY_PACKET];
    assert o.status == Ok && o.notify && [EmptyStream()][0 := o.state] == [o.state];
    s := o.state;
  }

  /** One check makes its thread the scheduling thread, and another asks it to look again. */
  lemma ChecksArrive(s: StreamState)
    ensures var n, m := OneStream(s, Idle, UNSET, 2, [], 0), OneStream(s, Scheduling, UNSET, 1, [Entry], 0);
            && Possible(n, Check) && Next(n, Check) == m
            && Possible(m, Check) && Next(m, Check) == OneStream(s, SchedulingPending, UNSET, 0, [Entry], 0)
  {
  }

  lemma PacketIsRead(s: StreamState)
    requires s.queue == [ANY_PACKET]
    ensures var n := OneStream(s, SchedulingPending, UNSET, 0, [Entry], 0);
            var m := OneStream(s, SchedulingPending, UNSET, 0, [Reading(1, [])], 0);
            && Possible(n, EnterLoop(0)) && Next(n, EnterLoop(0)) == m && Possible(m, ReadNext(0))
            && Next(m, ReadNext(0)) == OneStream(s, SchedulingPending, UNSET, 0, [Reading(1, [s.View()])], 0)
  {
    assert [] + [s.View()] == [s.View()];
  }

  lemma PacketIsReady(s: StreamState)
    requires s.queue == [ANY_PACKET]
    ensures var n := OneStream(s, SchedulingPending, UNSET, 0, [Reading(1, [s.View()])], 0);
            && Possible(n, Decide(0, false))
            && Next(n, Decide(0, false)) == OneStream(s, SchedulingPending, 0, 0, [Filling(1, 0, 0)], 0)
  {
    var samples := [s.View()];
    assert MinBound(samples, 1) == DONE && MinPacket(samples, 1) == 0 by {
      assert MinBound(samples, 0) == DONE && MinPacket(samples, 0) == DONE;
    }
  }

  lemma PacketIsScheduled(s: StreamState)
    ensures var n, m := OneStream(s, SchedulingPending, 0, 0, [Filling(1, 0, 0)], 0),
                        OneStream(Popping(s, 0), SchedulingPending, 0, 0, [Filled(1)], 0);
            && Possible(n, PopNext(0)) && Next(n, PopNext(0)) == m && Possible(m, PushContext(0, true))
            && Next(m, PushContext(0, true)) == OneStream(Popping(s, 0), SchedulingPending, 0, 0, [Bottom], 1)
  {
  }

  /** The undocumented transition does happen, at a node reached from its start. */
  lemma PendingMayBecomeIdle() returns (events: seq<Event>)
    ensures Execution(Start([AnyType], false, 1, -1), events)
    ensures var n := End(Start([AnyType], false, 1, -1), events);
            && Possible(n, EndOfLoop(0)) && n.c.scheduling.SchedulingPending?
               && Next(n, EndOfLoop(0)).c.scheduling.Idle?
  {
    var start := Start([AnyType], false, 1, -1);
    var s := PacketArrives();
    assert start.streams == [EmptyStream()];
    assert Possible(start, NodeOpened) && Next(start, NodeOpened) == OneStream(EmptyStream(), Idle, UNSET, 1, [], 0);
    ChecksArrive(s);
    PacketIsRead(s);
    PacketIsReady(s);
    PacketIsScheduled(s);
    var n := OneStream(Popping(s, 0), SchedulingPending, 0, 0, [Bottom], 1);
    assert Possible(n, EndOfLoop(0)) && Next(n, EndOfLoop(0)).c.scheduling.Idle?;
    assert Execution(start, []) && End(start, []) == start;
    hide Possible, Next, Popping, Start, Execution, End;
    events := [];
    ExecutionGrows(start, events, NodeOpened);
    events := events + [NodeOpened];
    ExecutionGrows(start, events, Produce(0, Add([ANY_PACKET])));
    events := events + [Produce(0, Add([ANY_PACKET]))];
    ExecutionGrows(start, events, Check);
    events := events + [Check];
    ExecutionGrows(start, events, Check);
    events := events + [Check];
    ExecutionGrows(start, events, EnterLoop(0));
    events := events + [EnterLoop(0)];
    ExecutionGrows(start, events, ReadNext(0));
    events := events + [ReadNext(0)];
    ExecutionGrows(start, events, Decide(0, false));
    events := events + [Decide(0, false)];
    ExecutionGrows(start, events, PopNext(0));
    events := events + [PopNext(0)];
    ExecutionGrows(start, events, PushContext(0, true));
    events := events + [PushContext(0, true)];
  }
}
