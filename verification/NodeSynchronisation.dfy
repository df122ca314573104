/** The scheduling of a node refines its synchronisation: since there is one scheduling
    thread at most, every step of any thread is a step of the interleaving that hands
    out the join of the input streams, or changes nothing in it. */
module NodeSynchronisation {
  import opened Results
  import opened Timestamps
  import opened InputStreams
  import opened SyncSets
  import Scheduling = NodeScheduling
  import Synchronisation = InputSynchronisation

  /** What the scheduling threads, one or none, are doing with the input streams. */
  ghost predicate PhaseMatches(loops: seq<Scheduling.Loop>, phase: Synchronisation.Phase) {
    && |loops| <= 1
    && match phase
       case Idle => loops == [] || loops[0].Entry? || loops[0].Filled? || loops[0].Bottom?
       case Reading(samples) => loops != [] && loops[0].Reading? && loops[0].samples == samples
       case Filling(t, slots) => loops != [] && loops[0].Filling? && loops[0].t == t && loops[0].popped == |slots|
       case ReadyToClose =>
         loops == [] || loops[0].Entry? || loops[0].Bottom?
         || (loops[0].Reading? && forall i :: 0 <= i < |loops[0].samples| ==>
             Scheduling.SampleEnds(loops[0].samples[i]))
  }

  ghost predicate StreamsMatch(streams: seq<StreamState>, histories: seq<StreamHistory>, ended: bool)
    requires |streams| == |histories|
  {
    forall i :: 0 <= i < |streams| ==> StreamMatches(streams[i], histories[i], ended)
  }

  /** The streams are the same, until the node closes its own. */
  predicate StreamMatches(s: StreamState, h: StreamHistory, ended: bool) {
    s == h.s || (ended && s.closed && Scheduling.Ended(s))
  }

  ghost predicate Matches(n: Scheduling.System, m: Synchronisation.Node) {
    && n.types == m.types && n.processTimestamps == m.processTimestamps && |n.streams| == |m.streams|
    && PhaseMatches(n.loops, m.phase) && StreamsMatch(n.streams, m.streams, m.phase.ReadyToClose?)
    && (!m.phase.ReadyToClose? ==> n.lastProcessed == m.lastProcessed && !n.closePrepared)
  }

  /** The step of synchronisation that a step of scheduling is, if it is one. */
  function Matching(n: Scheduling.System, m: Synchronisation.Node, e: Scheduling.Event): seq<Synchronisation.Event>
    requires Scheduling.Possible(n, e)
  {
    match e
    case Produce(i, op) => if m.phase.ReadyToClose? && n.streams[i].closed then [] else [Synchronisation.Produce(i, op)]
    case ReadNext(_) => if m.phase.Reading? then [Synchronisation.ReadNext] else []
    case Decide(_, _) => if m.phase.Reading? then [Synchronisation.DecideReadiness] else []
    case PopNext(_) => [Synchronisation.PopNext]
    case _ =>
      var loops := Scheduling.Next(n, e).loops;
      if m.phase.Idle? && loops != [] && loops[0].Reading? then [Synchronisation.BeginRead] else []
  }

  ghost predicate Related(n: Scheduling.System, m: Synchronisation.Node) {
    Scheduling.Inv(n) && Synchronisation.Inv(m) && Matches(n, m)
  }

  /** The step refines at most one step of synchronisation. */
  ghost predicate Refines(n: Scheduling.System, m: Synchronisation.Node, e: Scheduling.Event)
    requires Scheduling.Possible(n, e)
  {
    var steps := Matching(n, m, e);
    Synchronisation.Execution(m, steps) && Matches(Scheduling.Next(n, e), Synchronisation.End(m, steps))
  }

  lemma OneStep(m: Synchronisation.Node, step: Synchronisation.Event)
    requires Synchronisation.Possible(m, step)
    ensures Synchronisation.Execution(m, [step]) && Synchronisation.End(m, [step]) == Synchronisation.Next(m, step)
  {
    assert [step][1..] == [] && Synchronisation.Execution(Synchronisation.Next(m, step), []);
  }

  lemma RefinesOneStep(n: Scheduling.System, m: Synchronisation.Node, e: Scheduling.Event, step: Synchronisation.Event)
    requires Scheduling.Possible(n, e) && Matching(n, m, e) == [step] && Synchronisation.Possible(m, step)
    requires Matches(Scheduling.Next(n, e), Synchronisation.Next(m, step))
    ensures Refines(n, m, e)
  {
    hide Synchronisation.Execution, Synchronisation.End, Synchronisation.Possible, Synchronisation.Next, Matches;
    hide Matching;
    OneStep(m, step);
  }

  lemma RefinesNoStep(n: Scheduling.System, m: Synchronisation.Node, e: Scheduling.Event)
    requires Scheduling.Possible(n, e) && Matching(n, m, e) == [] && Matches(Scheduling.Next(n, e), m)
    ensures Refines(n, m, e)
  {
    hide Matches, Matching, Scheduling.Next, Scheduling.Possible, Synchronisation.Possible, Synchronisation.Next;
  }

  /** A producer's call on streams that match, or that the node has closed. */
  lemma ProducedStreamsMatch(packetType: PacketType, s: StreamState, h: StreamHistory, op: Op, ended: bool)
    requires IsProducerOp(op) && Scheduling.PacketsAllowed(s) && StreamMatches(s, h, ended)
             && (ended ==> Scheduling.Ended(s))
    requires Scheduling.ProducerOutcome(packetType, s, op).status == Ok
    ensures var r := Scheduling.ProducerOutcome(packetType, s, op).state;
            if ended && s.closed then StreamMatches(r, h, ended) && StreamMatches(r, Step(packetType, h, op), ended)
            else r == Step(packetType, h, op).s
  {
    Scheduling.ProducerEffect(packetType, s, op);
  }

  lemma ProduceRefines(n: Scheduling.System, m: Synchronisation.Node, i: nat, op: Op)
    requires Related(n, m) && Scheduling.Possible(n, Scheduling.Produce(i, op))
    ensures Refines(n, m, Scheduling.Produce(i, op))
  {
    hide *;
    StreamIsAllowed(n, m, i, op);
    ProduceMatches(n, m, i, op);
    var e := Scheduling.Produce(i, op);
    if Matching(n, m, e) == [] {
      RefinesNoStep(n, m, e);
    } else {
      RefinesOneStep(n, m, e, Synchronisation.Produce(i, op));
    }
  }

  lemma StreamIsAllowed(n: Scheduling.System, m: Synchronisation.Node, i: nat, op: Op)
    requires Related(n, m) && Scheduling.Possible(n, Scheduling.Produce(i, op))
    ensures Matches(n, m) && i < |n.streams| && Scheduling.PacketsAllowed(n.streams[i])
    ensures m.phase.ReadyToClose? ==> Scheduling.Ended(n.streams[i])
  {
    hide Scheduling.CountsInv, Scheduling.LoopInv, Synchronisation.Inv, Matches, Scheduling.ProducerOutcome;
    if m.phase.ReadyToClose? {
      StreamsEnded(n, m);
    }
  }

  lemma ProduceMatches(n: Scheduling.System, m: Synchronisation.Node, i: nat, op: Op)
    requires Matches(n, m) && Scheduling.Possible(n, Scheduling.Produce(i, op))
    requires Scheduling.PacketsAllowed(n.streams[i]) && (m.phase.ReadyToClose? ==> Scheduling.Ended(n.streams[i]))
    ensures var e, step := Scheduling.Produce(i, op), Synchronisation.Produce(i, op);
            if Matching(n, m, e) == [] then Matches(Scheduling.Next(n, e), m)
            else Matching(n, m, e) == [step] && Synchronisation.Possible(m, step)
                 && Matches(Scheduling.Next(n, e), Synchronisation.Next(m, step))
  {
    hide PhaseMatches, Scheduling.ProducerOutcome, Step, Scheduling.PacketsAllowed;
    assert StreamMatches(n.streams[i], m.streams[i], m.phase.ReadyToClose?);
    ProducedStreamsMatch(n.types[i], n.streams[i], m.streams[i], op, m.phase.ReadyToClose?);
    hide Scheduling.Ended;
  }

  lemma ReadNextRefines(n: Scheduling.System, m: Synchronisation.Node, k: nat)
    requires Related(n, m) && Scheduling.Possible(n, Scheduling.ReadNext(k))
    ensures Refines(n, m, Scheduling.ReadNext(k))
  {
    hide Scheduling.Inv, Synchronisation.Inv, Refines;
    if m.phase.ReadyToClose? {
      ReadEndedRefines(n, m, k);
    } else {
      var i := |n.loops[k].samples|;
      assert StreamMatches(n.streams[i], m.streams[i], false);
      hide StreamMatches, StreamsMatch;
      RefinesOneStep(n, m, Scheduling.ReadNext(k), Synchronisation.ReadNext);
    }
  }

  /** Once the streams have ended, reading them changes nothing. */
  lemma ReadEndedRefines(n: Scheduling.System, m: Synchronisation.Node, k: nat)
    requires Related(n, m) && Scheduling.Possible(n, Scheduling.ReadNext(k)) && m.phase.ReadyToClose?
    ensures Refines(n, m, Scheduling.ReadNext(k))
  {
    StreamsEnded(n, m);
    hide Scheduling.Inv, Synchronisation.Inv, StreamsMatch, Refines;
    assert Scheduling.Ended(n.streams[|n.loops[k].samples|]);
    RefinesNoStep(n, m, Scheduling.ReadNext(k));
  }

  lemma StreamsEnded(n: Scheduling.System, m: Synchronisation.Node)
    requires Related(n, m) && m.phase.ReadyToClose?
    ensures Scheduling.AllEnded(n.streams)
  {
    forall i | 0 <= i < |n.streams| ensures Scheduling.Ended(n.streams[i]) {
      assert StreamMatches(n.streams[i], m.streams[i], m.phase.ReadyToClose?);
      assert Synchronisation.StreamInv(m.phase, Synchronisation.Cut(m.handed), i, m.streams[i]);
    }
  }

  lemma StreamsStayMatched(streams: seq<StreamState>, histories: seq<StreamHistory>)
    requires |streams| == |histories|
    ensures StreamsMatch(streams, histories, false) ==> StreamsMatch(streams, histories, true)
  {
  }

  lemma DecideRefines(n: Scheduling.System, m: Synchronisation.Node, k: nat, activeContexts: bool)
    requires Related(n, m) && Scheduling.Possible(n, Scheduling.Decide(k, activeContexts))
    ensures Refines(n, m, Scheduling.Decide(k, activeContexts))
  {
    hide Scheduling.Inv, Synchronisation.Inv, DecisionOf, Refines, StreamMatches;
    StreamsStayMatched(n.streams, m.streams);
    hide StreamsMatch;
    if m.phase.ReadyToClose? {
      Scheduling.EndedStreamsMeanClose(n.loops[k].samples, n.processTimestamps, n.lastProcessed);
      RefinesNoStep(n, m, Scheduling.Decide(k, activeContexts));
    } else {
      RefinesOneStep(n, m, Scheduling.Decide(k, activeContexts), Synchronisation.DecideReadiness);
    }
  }

  lemma PopNextRefines(n: Scheduling.System, m: Synchronisation.Node, k: nat)
    requires Related(n, m) && Scheduling.Possible(n, Scheduling.PopNext(k))
    ensures Refines(n, m, Scheduling.PopNext(k))
  {
    hide Scheduling.Inv, Synchronisation.Inv, Refines;
    var i := n.loops[k].popped;
    assert StreamMatches(n.streams[i], m.streams[i], m.phase.ReadyToClose?);
    RefinesOneStep(n, m, Scheduling.PopNext(k), Synchronisation.PopNext);
  }

  /** The steps that do not touch the input streams. */
  lemma ControlRefines(n: Scheduling.System, m: Synchronisation.Node, e: Scheduling.Event)
    requires Related(n, m) && Scheduling.Possible(n, e)
    requires !e.Produce? && !e.ReadNext? && !e.Decide? && !e.PopNext? && !e.CloseStream?
    ensures Refines(n, m, e)
  {
    hide *;
    RelatedParts(n, m);
    ControlMatches(n, m, e);
    if Matching(n, m, e) == [] {
      RefinesNoStep(n, m, e);
    } else {
      RefinesOneStep(n, m, e, Synchronisation.BeginRead);
    }
  }

  lemma RelatedParts(n: Scheduling.System, m: Synchronisation.Node)
    requires Related(n, m)
    ensures Scheduling.Inv(n) && Synchronisation.Inv(m) && Matches(n, m) && Scheduling.CountsInv(n)
  {
    hide Scheduling.CountsInv, Scheduling.StreamsInv, Scheduling.LoopInv, Synchronisation.Inv, Matches;
  }

  lemma ControlMatches(n: Scheduling.System, m: Synchronisation.Node, e: Scheduling.Event)
    requires Matches(n, m) && Scheduling.CountsInv(n) && Scheduling.Possible(n, e)
    requires !e.Produce? && !e.ReadNext? && !e.Decide? && !e.PopNext? && !e.CloseStream?
    ensures if Matching(n, m, e) == [] then Matches(Scheduling.Next(n, e), m)
            else && Matching(n, m, e) == [Synchronisation.BeginRead]
                 && Synchronisation.Possible(m, Synchronisation.BeginRead)
                 && Matches(Scheduling.Next(n, e), Synchronisation.Next(m, Synchronisation.BeginRead))
  {
    hide StreamsMatch;
    if e.EnterLoop? || e.EndOfLoop? || e.PushContext? {
      LoopMatches(n, m, e);
    } else {
      OtherMatches(n, m, e);
    }
  }

  lemma LoopMatches(n: Scheduling.System, m: Synchronisation.Node, e: Scheduling.Event)
    requires Matches(n, m) && Scheduling.CountsInv(n) && Scheduling.Possible(n, e)
    requires e.EnterLoop? || e.EndOfLoop? || e.PushContext?
    ensures if Matching(n, m, e) == [] then Matches(Scheduling.Next(n, e), m)
            else && Matching(n, m, e) == [Synchronisation.BeginRead]
                 && Synchronisation.Possible(m, Synchronisation.BeginRead)
                 && Matches(Scheduling.Next(n, e), Synchronisation.Next(m, Synchronisation.BeginRead))
  {
    hide StreamsMatch, Scheduling.CountsInv;
    LoopStays(n, m, e);
  }

  /** The steps of the loop leave the input streams alone, and keep one loop at most. */
  lemma LoopStays(n: Scheduling.System, m: Synchronisation.Node, e: Scheduling.Event)
    requires Scheduling.CountsInv(n) && Scheduling.Possible(n, e) && (e.EnterLoop? || e.EndOfLoop? || e.PushContext?)
    ensures var r := Scheduling.Next(n, e);
            && r == n.(c := r.c, loops := r.loops, queued := r.queued) && |n.loops| == 1 && |r.loops| <= 1
            && (r.loops != [] ==> r.loops[0].Bottom? || (r.loops[0].Reading? && r.loops[0].samples == []))
  {
  }

  /** The other steps leave a loop where it is, or start one. */
  lemma OtherMatches(n: Scheduling.System, m: Synchronisation.Node, e: Scheduling.Event)
    requires Matches(n, m) && Scheduling.CountsInv(n) && Scheduling.Possible(n, e)
    requires e.NodeOpened? || e.Check? || e.StartTask? || e.FinishTask? || e.MarkClosed?
    ensures Matching(n, m, e) == [] && Matches(Scheduling.Next(n, e), m)
  {
    hide StreamsMatch;
    var r := Scheduling.Next(n, e);
    assert r == n.(c := r.c, loops := r.loops, queued := r.queued, running := r.running, owedChecks := r.owedChecks);
    assert r.loops == n.loops || (n.loops == [] && r.loops == [Scheduling.Entry]);
    hide Scheduling.Next, Scheduling.CountsInv;
  }

  lemma CloseStreamRefines(n: Scheduling.System, m: Synchronisation.Node, i: nat)
    requires Related(n, m) && Scheduling.Possible(n, Scheduling.CloseStream(i))
    ensures Refines(n, m, Scheduling.CloseStream(i))
  {
    hide *;
    RelatedParts(n, m);
    ClosingMeansEnded(n, m, i);
    StreamsEnded(n, m);
    CloseMatches(n, m, i);
    RefinesNoStep(n, m, Scheduling.CloseStream(i));
  }

  lemma ClosingMeansEnded(n: Scheduling.System, m: Synchronisation.Node, i: nat)
    requires Matches(n, m) && Scheduling.Possible(n, Scheduling.CloseStream(i))
    ensures m.phase.ReadyToClose?
  {
    hide PhaseMatches, StreamsMatch;
  }

  /** The node closes a stream that has ended. */
  lemma CloseMatches(n: Scheduling.System, m: Synchronisation.Node, i: nat)
    requires Matches(n, m) && m.phase.ReadyToClose? && Scheduling.AllEnded(n.streams)
    requires Scheduling.Possible(n, Scheduling.CloseStream(i))
    ensures Matching(n, m, Scheduling.CloseStream(i)) == []
    ensures Matches(Scheduling.Next(n, Scheduling.CloseStream(i)), m)
  {
    hide PhaseMatches;
    assert StreamMatches(n.streams[i], m.streams[i], true) && Scheduling.Ended(n.streams[i]);
  }

  lemma StepRefines(n: Scheduling.System, m: Synchronisation.Node, e: Scheduling.Event)
    requires Related(n, m) && Scheduling.Possible(n, e)
    ensures Refines(n, m, e) && Related(Scheduling.Next(n, e), Synchronisation.End(m, Matching(n, m, e)))
  {
    match e {
      case Produce(i, op) => ProduceRefines(n, m, i, op);
      case ReadNext(k) => ReadNextRefines(n, m, k);
      case Decide(k, activeContexts) => DecideRefines(n, m, k, activeContexts);
      case PopNext(k) => PopNextRefines(n, m, k);
      case CloseStream(i) => CloseStreamRefines(n, m, i);
      case _ => ControlRefines(n, m, e);
    }
    hide Scheduling.Inv, Synchronisation.Inv, Matches, Scheduling.Next, Matching;
    Scheduling.NextKeepsInv(n, e);
    Synchronisation.ExecutionKeepsInv(m, Matching(n, m, e));
  }

  lemma {:induction false} ExecutionsAppend(m: Synchronisation.Node, a: seq<Synchronisation.Event>,
          b: seq<Synchronisation.Event>)
    requires Synchronisation.Execution(m, a) && Synchronisation.Execution(Synchronisation.End(m, a), b)
    ensures Synchronisation.Execution(m, a + b)
    ensures Synchronisation.End(m, a + b) == Synchronisation.End(Synchronisation.End(m, a), b)
    decreases |a|
  {
    hide Synchronisation.Possible, Synchronisation.Next;
    if a == [] {
      assert a + b == b;
    } else {
      ExecutionsAppend(Synchronisation.Next(m, a[0]), a[1..], b);
      assert (a + b)[0] == a[0] && (a + b)[1..] == a[1..] + b;
    }
  }

  lemma {:induction false} ExecutionRefines(n: Scheduling.System, m: Synchronisation.Node,
                                            events: seq<Scheduling.Event>)
    returns (steps: seq<Synchronisation.Event>)
    requires Related(n, m) && Scheduling.Execution(n, events)
    ensures Synchronisation.Execution(m, steps) && Related(Scheduling.End(n, events), Synchronisation.End(m, steps))
    decreases |events|
  {
    hide Related, Scheduling.Possible, Scheduling.Next, Matching, Synchronisation.Possible, Synchronisation.Next;
    if events == [] {
      steps := [];
    } else {
      StepRefines(n, m, events[0]);
      var first := Matching(n, m, events[0]);
      var rest := ExecutionRefines(Scheduling.Next(n, events[0]), Synchronisation.End(m, first), events[1..]);
      ExecutionsAppend(m, first, rest);
      steps := first + rest;
    }
  }

  lemma StartsMatch(types: seq<PacketType>, processTimestamps: bool, maxInFlight: nat, maxQueueSize: int)
    requires types != [] && maxInFlight > 0
    ensures Related(Scheduling.Start(types, processTimestamps, maxInFlight, maxQueueSize),
                    Synchronisation.Start(types, seq(|types|, _ => maxQueueSize), processTimestamps))
  {
    Synchronisation.StartSatisfiesInv(types, seq(|types|, _ => maxQueueSize), processTimestamps);
  }

  /** Every execution of a node's threads is an execution of the synchronisation of its
      input streams, so that all its guarantees are guarantees of the node. */
  lemma SchedulingIsSynchronised(types: seq<PacketType>, processTimestamps: bool, maxInFlight: nat, maxQueueSize: int,
          events: seq<Scheduling.Event>)
    returns (steps: seq<Synchronisation.Event>)
    requires types != [] && maxInFlight > 0
    requires Scheduling.Execution(Scheduling.Start(types, processTimestamps, maxInFlight, maxQueueSize), events)
    ensures var m := Synchronisation.Start(types, seq(|types|, _ => maxQueueSize), processTimestamps);
            && Synchronisation.Execution(m, steps) && Synchronisation.Inv(Synchronisation.End(m, steps))
            && Matches(Scheduling.End(Scheduling.Start(types, processTimestamps, maxInFlight, maxQueueSize), events),
                       Synchronisation.End(m, steps))
  {
    hide Scheduling.Inv, Synchronisation.Inv, Matches, Scheduling.Execution, Scheduling.End, Synchronisation.Execution;
    hide Synchronisation.End;
    StartsMatch(types, processTimestamps, maxInFlight, maxQueueSize);
    steps := ExecutionRefines(
      Scheduling.Start(types, processTimestamps, maxInFlight, maxQueueSize),
      Synchronisation.Start(types, seq(|types|, _ => maxQueueSize), processTimestamps), events);
  }

  /** In every reachable state of the node, popping the next stream of an input set drops
      nothing and fails no CHECK, although any thread may have done the scheduling. */
  lemma SchedulingNeverDrops(types: seq<PacketType>, processTimestamps: bool, maxInFlight: nat, maxQueueSize: int,
          events: seq<Scheduling.Event>, k: nat)
    requires types != [] && maxInFlight > 0
    requires Scheduling.Execution(Scheduling.Start(types, processTimestamps, maxInFlight, maxQueueSize), events)
    requires Scheduling.Possible(Scheduling.End(Scheduling.Start(types, processTimestamps, maxInFlight, maxQueueSize),
                                                events),
                                 Scheduling.PopNext(k))
    ensures var n := Scheduling.End(Scheduling.Start(types, processTimestamps, maxInFlight, maxQueueSize), events);
            var s, t := n.streams[n.loops[k].popped], n.loops[k].t;
            Synchronisation.SettledAt(s, t) && Enabled(s, Pop(t)) && Popped(s, t).1 == 0
  {
    var steps := SchedulingIsSynchronised(types, processTimestamps, maxInFlight, maxQueueSize, events);
    hide Scheduling.Execution, Scheduling.End, Synchronisation.Execution, Synchronisation.End, Matches;
    PopDropsNothing(
      Scheduling.End(Scheduling.Start(types, processTimestamps, maxInFlight, maxQueueSize), events),
      Synchronisation.End(Synchronisation.Start(types, seq(|types|, _ => maxQueueSize), processTimestamps), steps), k);
  }

  lemma PopDropsNothing(n: Scheduling.System, m: Synchronisation.Node, k: nat)
    requires Matches(n, m) && Synchronisation.Inv(m) && Scheduling.Possible(n, Scheduling.PopNext(k))
    ensures var s, t := n.streams[n.loops[k].popped], n.loops[k].t;
            Synchronisation.SettledAt(s, t) && Enabled(s, Pop(t)) && Popped(s, t).1 == 0
  {
    PopIsPossible(n, m, k);
    hide Matches, Synchronisation.Inv;
    Synchronisation.FillNeverDrops(m);
  }

  lemma PopIsPossible(n: Scheduling.System, m: Synchronisation.Node, k: nat)
    requires Matches(n, m) && Scheduling.Possible(n, Scheduling.PopNext(k))
    ensures Synchronisation.Possible(m, Synchronisation.PopNext) && m.phase.t == n.loops[k].t
    ensures |m.phase.slots| == n.loops[k].popped && n.streams[n.loops[k].popped] == m.streams[n.loops[k].popped].s
  {
    assert StreamMatches(n.streams[n.loops[k].popped], m.streams[n.loops[k].popped], m.phase.ReadyToClose?);
  }
}
