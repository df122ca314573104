/** One node with parallel invocations: its scheduling threads, the synchronised input
    streams, the contexts in use, and the in-order propagation of its outputs. What the
    parts ask of each other is shown here to hold in every interleaving. */
module NodePropagation {
  import opened Results
  import opened Timestamps
  import opened InputStreams
  import opened SyncSets
  import Scheduling = NodeScheduling
  import Synchronisation = InputSynchronisation
  import Joining = NodeSynchronisation
  import Propagation = OutputPropagation
  import Invocations

  /** `bound` is the input bound that the last evaluation found, until the output stream
      handler is told; `closing` says that the invocation at Done has not ended. */
  datatype System = System(
    n: Scheduling.System,
    m: Synchronisation.Node,
    p: Propagation.System,
    bound: Option<Timestamp>,
    closing: bool,
    aborted: bool)

  /** A step of scheduling that leaves the contexts alone; a readiness decision; the
      calls of the output stream handler by a task and by the scheduling thread; a step of
      the propagation thread; and the end of a task, or of the one that closes the node. */
  datatype Event =
    | Schedule(e: Scheduling.Event)
    | Decide(k: nat)
    | Post(t: Timestamp)
    | UpdateBound
    | Advance
    | EndTask
    | EndClose

  predicate IsLoopStep(e: Scheduling.Event) {
    e.EnterLoop? || e.ReadNext? || e.PopNext? || e.PushContext? || e.EndOfLoop?
  }

  /** One input set is popped or popped already, and not scheduled yet. */
  function Filling(n: Scheduling.System): nat {
    if n.loops != [] && (n.loops[0].Filling? || n.loops[0].Filled?) then 1 else 0
  }

  function FillingAt(y: System): Option<Timestamp> {
    if y.n.loops == [] then None
    else if y.n.loops[0].Filling? then Some(y.n.loops[0].t)
    else if y.n.loops[0].Filled? then Some(Synchronisation.Cut(y.m.handed))
    else None
  }

  /** What the threads may do. The scheduling thread does nothing else while it propagates;
      only a task that was taken from the scheduler queue comes to PostProcess; batches
      have one input set. */
  predicate CanStep(y: System, e: Event) {
    match e
    case Schedule(s) =>
      && Scheduling.Possible(y.n, s) && !s.Decide? && !s.FinishTask? && (s.PushContext? ==> s.batchComplete)
      && (IsLoopStep(s) ==> !Propagation.SchedulerPropagates(y.p)) && (s.EndOfLoop? ==> y.bound.None?)
    case Decide(k) =>
      k < |y.n.loops| && y.n.loops[k].Reading? && |y.n.loops[k].samples| == |y.n.streams|
    case Post(t) => t in y.p.running && FillingAt(y) != Some(t) && y.n.queued + Filling(y.n) < |y.p.running|
    case UpdateBound => y.bound.Some?
    case Advance => !y.p.at.Nobody?
    case EndTask => y.p.posted > if Propagation.TaskPropagates(y.p) then 1 else 0
    case EndClose => y.closing && y.n.queued == 0
  }

  function DecisionAt(n: Scheduling.System, k: nat): Decision
    requires k < |n.loops| && n.loops[k].Reading?
  {
    DecisionOf(n.loops[k].samples, n.processTimestamps, n.lastProcessed)
  }

  /** The step of scheduling: a decision reads whether contexts are in use. */
  function SchedulingStep(y: System, e: Event): Option<Scheduling.Event> {
    match e
    case Schedule(s) => Some(s)
    case Decide(k) => Some(Scheduling.Decide(k, y.p.h.active != {}))
    case EndTask => Some(Scheduling.FinishTask)
    case EndClose => Some(Scheduling.FinishTask)
    case _ => None
  }

  /** The step of propagation: an input set that is ready gets a context. */
  function PropagationStep(y: System, e: Event): Option<Propagation.Event>
    requires CanStep(y, e)
  {
    match e
    case Decide(k) =>
      var d := DecisionAt(y.n, k);
      if d.readiness.ReadyForProcess? then Some(Propagation.Prepare(d.minStreamTimestamp)) else None
    case Post(t) => Some(Propagation.Post(t))
    case UpdateBound => Some(Propagation.UpdateBound(y.bound.value))
    case Advance => Some(Propagation.Advance)
    case EndTask => Some(Propagation.EndTask)
    case _ => None
  }

  /** What the parts ask of each other in this step. */
  predicate Fits(y: System, e: Event)
    requires CanStep(y, e)
  {
    && (SchedulingStep(y, e).Some? ==> Scheduling.Possible(y.n, SchedulingStep(y, e).value))
    && (PropagationStep(y, e).Some? ==> Propagation.Possible(y.p, PropagationStep(y, e).value))
  }

  /** Synchronisation follows scheduling. */
  ghost function Followed(n: Scheduling.System, m: Synchronisation.Node,
                          s: Option<Scheduling.Event>): Synchronisation.Node
    requires s.Some? ==> Scheduling.Possible(n, s.value)
  {
    if s.Some? && Synchronisation.Execution(m, Joining.Matching(n, m, s.value))
    then Synchronisation.End(m, Joining.Matching(n, m, s.value)) else m
  }

  function BoundAfter(y: System, e: Event): Option<Timestamp>
    requires CanStep(y, e)
  {
    match e
    case Decide(k) =>
      var d := DecisionAt(y.n, k);
      if d.readiness.NotReady? then Some(d.minStreamTimestamp) else None
    case UpdateBound => None
    case _ => y.bound
  }

  function ClosingAfter(y: System, e: Event): bool
    requires CanStep(y, e)
  {
    match e
    case Decide(k) =>
      y.closing || (DecisionAt(y.n, k).readiness.ReadyForClose? && y.p.h.active == {} && !y.n.closePrepared)
    case EndClose => false
    case _ => y.closing
  }

  ghost function Next(y: System, e: Event): System
    requires CanStep(y, e)
  {
    if !Fits(y, e) then y.(aborted := true)
    else
      var s, q := SchedulingStep(y, e), PropagationStep(y, e);
      System(if s.Some? then Scheduling.Next(y.n, s.value) else y.n, Followed(y.n, y.m, s),
             if q.Some? then Propagation.Next(y.p, q.value) else y.p, BoundAfter(y, e), ClosingAfter(y, e), y.aborted)
  }

  function Start(types: seq<PacketType>, processTimestamps: bool, maxInFlight: nat, maxQueueSize: int): System {
    System(Scheduling.Start(types, processTimestamps, maxInFlight, maxQueueSize),
           Synchronisation.Start(types, seq(|types|, _ => maxQueueSize), processTimestamps),
           Propagation.Start(), None, false, false)
  }

  // ----- The invariant -----

  predicate AtBottom(n: Scheduling.System) {
    n.loops != [] && n.loops[0].Bottom?
  }

  /** Tasks and contexts: every task is queued, runs, has come to PostProcess, or closes
      the node; once the close is prepared no context is in use. */
  predicate CountsMatch(n: Scheduling.System, p: Propagation.System, closing: bool) {
    && n.queued + n.running + Filling(n) == |p.running| + p.posted + (if closing then 1 else 0)
    && (if n.closePrepared then
          p.running == {} && p.h.active == {} && Filling(n) == 0 && n.queued <= if closing then 1 else 0
        else !closing && n.queued + Filling(n) <= |p.running|)
    && (Propagation.SchedulerPropagates(p) ==> AtBottom(n))
  }

  /** Contexts are prepared for the input sets that are handed out, in their order. */
  predicate HandedMatch(m: Synchronisation.Node, p: Propagation.System) {
    p.prepared == Invocations.Times(m.handed) + if m.phase.Filling? then [m.phase.t] else []
  }

  /** No stream can show anything before the bound. */
  predicate BoundsFrontiers(m: Synchronisation.Node, bound: Timestamp) {
    forall i :: 0 <= i < |m.streams| ==> bound <= Frontier(m.streams[i])
  }

  predicate BoundsSamples(m: Synchronisation.Node, bound: Timestamp) {
    m.phase.Reading? ==> forall i :: 0 <= i < |m.phase.samples| ==> bound <= m.phase.samples[i].timestamp
  }

  predicate BoundsMatch(y: System) {
    && BoundsFrontiers(y.m, y.p.h.taskBound) && BoundsSamples(y.m, y.p.h.taskBound)
    && (y.bound.Some? ==>
          && AtBottom(y.n) && !Propagation.SchedulerPropagates(y.p)
          && y.p.h.taskBound <= y.bound.value && BoundsFrontiers(y.m, y.bound.value))
  }

  ghost predicate Inv(y: System) {
    && !y.aborted && Joining.Related(y.n, y.m) && Propagation.Inv(y.p)
    && CountsMatch(y.n, y.p, y.closing) && HandedMatch(y.m, y.p) && BoundsMatch(y)
  }

  lemma StartSatisfiesInv(types: seq<PacketType>, processTimestamps: bool, maxInFlight: nat, maxQueueSize: int)
    requires types != [] && maxInFlight > 0
    ensures Inv(Start(types, processTimestamps, maxInFlight, maxQueueSize))
  {
    hide Joining.Related, Propagation.Inv;
    Joining.StartsMatch(types, processTimestamps, maxInFlight, maxQueueSize);
    Propagation.StartSatisfiesInv();
    var m := Synchronisation.Start(types, seq(|types|, _ => maxQueueSize), processTimestamps);
    assert Invocations.Times(m.handed) == [];
    assert BoundsFrontiers(m, UNSET);
  }

  // ----- What the parts ask of each other -----

  lemma InvParts(y: System)
    requires Inv(y)
    ensures !y.aborted && Joining.Related(y.n, y.m) && Propagation.Inv(y.p)
    ensures Scheduling.Inv(y.n) && Synchronisation.Inv(y.m) && Joining.Matches(y.n, y.m) && Scheduling.CountsInv(y.n)
    ensures CountsMatch(y.n, y.p, y.closing) && HandedMatch(y.m, y.p) && BoundsMatch(y)
  {
    hide Scheduling.CountsInv, Scheduling.StreamsInv, Scheduling.LoopInv, Synchronisation.Inv, Propagation.Inv;
    hide Joining.Matches, CountsMatch, HandedMatch, BoundsMatch;
  }

  lemma ReadingIsNotBottom(y: System, k: nat)
    requires Scheduling.CountsInv(y.n) && CanStep(y, Decide(k))
    ensures k == 0 && |y.n.loops| == 1 && y.n.loops[0].Reading? && |y.n.loops[0].samples| == |y.n.streams|
    ensures Filling(y.n) == 0 && !AtBottom(y.n)
  {
  }

  lemma ContextsMeanInFlight(n: Scheduling.System, p: Propagation.System, closing: bool)
    requires Scheduling.CountsInv(n) && CountsMatch(n, p, closing) && Filling(n) == 0 && !AtBottom(n)
    requires !Propagation.SchedulerPropagates(p) && p.h.active != {} ==> p.running != {} || p.posted > 0
    requires p.running <= p.h.active
    ensures p.h.active != {} ==> n.c.inFlight > 0
    ensures n.queued > 0 && !n.closePrepared ==> p.h.active != {}
  {
    if p.running == {} {
      assert |p.running| == 0;
    } else {
      var t :| t in p.running;
      assert p.running == (p.running - {t}) + {t};
      assert |p.running| > 0;
    }
  }

  lemma GuardsSuffice(y: System, k: nat)
    requires CanStep(y, Decide(k))
    requires y.p.h.active != {} ==> y.n.c.inFlight > 0
    requires y.n.queued > 0 && !y.n.closePrepared ==> y.p.h.active != {}
    ensures Scheduling.Possible(y.n, Scheduling.Decide(k, y.p.h.active != {}))
  {
  }

  /** Whether contexts are in use is what the scheduling of the node relies on: they are
      only while an invocation is in flight, and always while one is queued. */
  lemma DecideIsPossible(y: System, k: nat)
    requires Inv(y) && CanStep(y, Decide(k))
    ensures Scheduling.Possible(y.n, Scheduling.Decide(k, y.p.h.active != {}))
  {
    hide *;
    InvParts(y);
    ReadingIsNotBottom(y, k);
    Propagation.ActiveMeansInFlight(y.p);
    ContextsMeanInFlight(y.n, y.p, y.closing);
    GuardsSuffice(y, k);
  }

  /** Without parallel execution no context is ever in use, which is what the scheduling
      of such a node relies on too. */
  lemma SequentialDecideIsPossible(n: Scheduling.System, k: nat)
    requires Scheduling.Inv(n) && n.c.maxInFlight == 1
    requires k < |n.loops| && n.loops[k].Reading? && |n.loops[k].samples| == |n.streams|
    ensures Scheduling.Possible(n, Scheduling.Decide(k, false))
  {
    assert Scheduling.LoopInv(n, n.loops[k]);
  }

  /** The decision of the node is that of its synchronisation, unless the streams ended. */
  lemma DecidesAlike(n: Scheduling.System, m: Synchronisation.Node)
    requires Joining.Matches(n, m) && |n.loops| == 1 && n.loops[0].Reading? && |n.loops[0].samples| == |n.streams|
    ensures m.phase.ReadyToClose? ==> DecisionAt(n, 0).readiness.ReadyForClose?
    ensures !m.phase.ReadyToClose? ==>
              && m.phase.Reading? && m.phase.samples == n.loops[0].samples
              && Synchronisation.Possible(m, Synchronisation.DecideReadiness)
              && DecisionAt(n, 0) == DecisionOf(m.phase.samples, m.processTimestamps, m.lastProcessed)
  {
    hide DecisionOf, Joining.StreamsMatch;
    if m.phase.ReadyToClose? {
      Scheduling.EndedStreamsMeanClose(n.loops[0].samples, n.processTimestamps, n.lastProcessed);
    }
  }

  /** An input set that is ready comes after all that were handed out. */
  lemma ReadyIsLater(m: Synchronisation.Node)
    requires Synchronisation.Inv(m) && Synchronisation.Possible(m, Synchronisation.DecideReadiness)
    requires DecisionOf(m.phase.samples, m.processTimestamps, m.lastProcessed).readiness.ReadyForProcess?
    ensures var t := DecisionOf(m.phase.samples, m.processTimestamps, m.lastProcessed).minStreamTimestamp;
            && Synchronisation.Next(m, Synchronisation.DecideReadiness).phase == Synchronisation.Filling(t, [])
            && Synchronisation.Cut(m.handed) < t
  {
    Synchronisation.NextKeepsInv(m, Synchronisation.DecideReadiness);
    hide Synchronisation.StreamsInv, Synchronisation.HandedInv, DecisionOf;
    assert Synchronisation.PhaseInv(Synchronisation.Next(m, Synchronisation.DecideReadiness));
  }

  /** The context of the next input set is new, and the last. */
  lemma PrepareIsPossible(y: System, k: nat)
    requires Inv(y) && CanStep(y, Decide(k)) && DecisionAt(y.n, k).readiness.ReadyForProcess?
    ensures Propagation.Possible(y.p, Propagation.Prepare(DecisionAt(y.n, k).minStreamTimestamp))
  {
    InvParts(y);
    ReadingIsNotBottom(y, k);
    hide Inv, Joining.Related, Joining.Matches, Propagation.Inv, Scheduling.Inv, Synchronisation.Inv, DecisionOf;
    hide BoundsMatch;
    DecidesAlike(y.n, y.m);
    ReadyIsLater(y.m);
    hide Synchronisation.Next;
    assert y.p.prepared == Invocations.Times(y.m.handed);
  }

  lemma TaskIsRunning(y: System, e: Event)
    requires CountsMatch(y.n, y.p, y.closing) && CanStep(y, e) && (e.EndTask? || e.EndClose?)
    ensures Scheduling.Possible(y.n, Scheduling.FinishTask)
  {
    assert y.p.running == {} ==> |y.p.running| == 0;
  }

  lemma BoundIsPossible(y: System)
    requires BoundsMatch(y) && CanStep(y, UpdateBound)
    ensures Propagation.Possible(y.p, Propagation.UpdateBound(y.bound.value))
  {
  }

  /** In every step the parts meet what they ask of each other. */
  lemma StepFits(y: System, e: Event)
    requires Inv(y) && CanStep(y, e)
    ensures Fits(y, e)
  {
    hide *;
    InvParts(y);
    if e.Decide? {
      DecisionFits(y, e.k);
    } else {
      if e.EndTask? || e.EndClose? {
        TaskIsRunning(y, e);
      } else if e.UpdateBound? {
        BoundIsPossible(y);
      }
      OtherStepFits(y, e);
    }
  }

  lemma OtherStepFits(y: System, e: Event)
    requires CanStep(y, e) && !e.Decide?
    requires e.EndTask? || e.EndClose? ==> Scheduling.Possible(y.n, Scheduling.FinishTask)
    requires e.UpdateBound? ==> Propagation.Possible(y.p, Propagation.UpdateBound(y.bound.value))
    ensures Fits(y, e)
  {
    hide Scheduling.Possible;
  }

  lemma DecisionFits(y: System, k: nat)
    requires Inv(y) && CanStep(y, Decide(k))
    ensures Fits(y, Decide(k))
  {
    hide Inv, Scheduling.Possible, Propagation.Possible, DecisionOf;
    DecideIsPossible(y, k);
    if DecisionAt(y.n, k).readiness.ReadyForProcess? {
      PrepareIsPossible(y, k);
    }
  }

  // ----- What every step keeps -----

  lemma ScheduleKeepsCounts(n: Scheduling.System, p: Propagation.System, closing: bool, s: Scheduling.Event)
    requires CountsMatch(n, p, closing) && Scheduling.CountsInv(n) && Scheduling.Possible(n, s)
    requires Scheduling.CountsInv(Scheduling.Next(n, s)) && !s.Decide? && !s.FinishTask?
             && (s.PushContext? ==> s.batchComplete)
    requires IsLoopStep(s) ==> !Propagation.SchedulerPropagates(p)
    ensures CountsMatch(Scheduling.Next(n, s), p, closing)
  {
    if IsLoopStep(s) {
      LoopKeepsCounts(n, p, closing, s);
    } else {
      if Propagation.SchedulerPropagates(p) {
        BottomStays(n, s);
      }
      OtherKeepsCounts(n, p, closing, s);
    }
  }

  lemma LoopKeepsCounts(n: Scheduling.System, p: Propagation.System, closing: bool, s: Scheduling.Event)
    requires CountsMatch(n, p, closing) && Scheduling.CountsInv(n) && Scheduling.Possible(n, s) && IsLoopStep(s)
    requires Scheduling.CountsInv(Scheduling.Next(n, s)) && (s.PushContext? ==> s.batchComplete)
    requires !Propagation.SchedulerPropagates(p)
    ensures CountsMatch(Scheduling.Next(n, s), p, closing)
  {
    LoopCounts(n, s);
    hide Scheduling.Next, Scheduling.CountsInv, Scheduling.Possible, Filling, IsLoopStep, AtBottom;
  }

  /** What a step of the loop does to the counts: an input set that was filled is queued. */
  lemma LoopCounts(n: Scheduling.System, s: Scheduling.Event)
    requires Scheduling.CountsInv(n) && Scheduling.Possible(n, s) && IsLoopStep(s)
             && (s.PushContext? ==> s.batchComplete)
    requires Scheduling.CountsInv(Scheduling.Next(n, s))
    ensures var r := Scheduling.Next(n, s);
            && r.running == n.running && r.closePrepared == n.closePrepared
               && r.queued + Filling(r) == n.queued + Filling(n)
            && Filling(r) <= Filling(n)
  {
    match s
    case PushContext(k, _) => PushCounts(n, k);
    case PopNext(k) => PopCounts(n, k);
    case _ =>
  }

  lemma PushCounts(n: Scheduling.System, k: nat)
    requires Scheduling.CountsInv(n) && Scheduling.Possible(n, Scheduling.PushContext(k, true))
    requires Scheduling.CountsInv(Scheduling.Next(n, Scheduling.PushContext(k, true)))
    ensures var r := Scheduling.Next(n, Scheduling.PushContext(k, true));
            && r.running == n.running && r.closePrepared == n.closePrepared && r.queued == n.queued + 1
            && Filling(r) == 0 && Filling(n) == 1
  {
  }

  lemma PopCounts(n: Scheduling.System, k: nat)
    requires Scheduling.CountsInv(n) && Scheduling.Possible(n, Scheduling.PopNext(k))
    ensures var r := Scheduling.Next(n, Scheduling.PopNext(k));
            && r.running == n.running && r.closePrepared == n.closePrepared && r.queued == n.queued
            && Filling(r) == 1 && Filling(n) == 1
  {
  }

  lemma OtherKeepsCounts(n: Scheduling.System, p: Propagation.System, closing: bool, s: Scheduling.Event)
    requires CountsMatch(n, p, closing) && Scheduling.CountsInv(n) && Scheduling.Possible(n, s) && !IsLoopStep(s)
    requires !s.Decide? && !s.FinishTask?
    requires Propagation.SchedulerPropagates(p) ==> AtBottom(Scheduling.Next(n, s))
    ensures CountsMatch(Scheduling.Next(n, s), p, closing)
  {
    var r := Scheduling.Next(n, s);
    assert r.closePrepared == n.closePrepared && r.queued + r.running == n.queued + n.running && r.queued <= n.queued;
    assert Filling(r) == Filling(n);
    hide Scheduling.Next, Scheduling.CountsInv, Filling, AtBottom;
  }

  /** Nothing but the end of its iteration takes the scheduling thread away from there. */
  lemma BottomStays(n: Scheduling.System, s: Scheduling.Event)
    requires Scheduling.CountsInv(n) && Scheduling.Possible(n, s) && AtBottom(n) && !s.EndOfLoop?
    ensures AtBottom(Scheduling.Next(n, s))
  {
  }

  lemma FinishKeepsCounts(n: Scheduling.System, p: Propagation.System, closing: bool, q: Propagation.System, r: bool)
    requires CountsMatch(n, p, closing) && Scheduling.CountsInv(n) && Scheduling.Possible(n, Scheduling.FinishTask)
    requires q.running == p.running && q.h.active <= p.h.active
    requires Propagation.SchedulerPropagates(q) ==> Propagation.SchedulerPropagates(p)
    requires (q.posted == p.posted - 1 && r == closing) || (q.posted == p.posted && closing && !r && n.queued == 0)
    ensures CountsMatch(Scheduling.Next(n, Scheduling.FinishTask), q, r)
  {
    if Propagation.SchedulerPropagates(q) {
      BottomStays(n, Scheduling.FinishTask);
    }
  }

  lemma PropagationKeepsCounts(y: System, e: Propagation.Event, q: Propagation.System)
    requires CountsMatch(y.n, y.p, y.closing) && Propagation.Effect(y.p, e, q)
    requires match e
             case Post(t) => t in y.p.running && y.n.queued + Filling(y.n) < |y.p.running|
             case UpdateBound(_) => AtBottom(y.n)
             case Advance => true
             case _ => false
    ensures CountsMatch(y.n, q, y.closing)
  {
    if e.Post? {
      assert y.p.running == q.running + {e.t};
      assert |q.running| == |y.p.running| - 1;
    }
  }

  /** A decision leaves the close to later exactly if contexts are in use. */
  lemma DecisionKeepsCounts(y: System, k: nat, q: Propagation.System)
    requires CanStep(y, Decide(k)) && CountsMatch(y.n, y.p, y.closing) && y.p.running <= y.p.h.active
    requires Scheduling.CountsInv(y.n) && Scheduling.Possible(y.n, Scheduling.Decide(k, y.p.h.active != {}))
    requires Scheduling.CountsInv(Scheduling.Next(y.n, Scheduling.Decide(k, y.p.h.active != {})))
    requires y.n.closePrepared ==> !DecisionAt(y.n, k).readiness.ReadyForProcess?
    requires if DecisionAt(y.n, k).readiness.ReadyForProcess?
             then var e := Propagation.Prepare(DecisionAt(y.n, k).minStreamTimestamp);
                  Propagation.Effect(y.p, e, q) && e.t !in y.p.running
             else q == y.p
    ensures CountsMatch(Scheduling.Next(y.n, Scheduling.Decide(k, y.p.h.active != {})), q, ClosingAfter(y, Decide(k)))
  {
    ReadingIsNotBottom(y, k);
    DecisionCounts(y, k);
    hide Scheduling.CountsInv, Scheduling.Next, Scheduling.Possible, ClosingAfter, CanStep, DecisionAt, Filling;
    hide AtBottom;
    if DecisionAt(y.n, k).readiness.ReadyForProcess? {
      var t := DecisionAt(y.n, k).minStreamTimestamp;
      assert q.running == y.p.running + {t} && |q.running| == |y.p.running| + 1;
    } else if y.p.h.active == {} {
      assert y.p.running == {} && |y.p.running| == 0;
    }
  }

  /** What a decision does to the counts. */
  lemma DecisionCounts(y: System, k: nat)
    requires CanStep(y, Decide(k)) && k == 0 && |y.n.loops| == 1 && (y.closing ==> y.n.closePrepared)
    requires Scheduling.Possible(y.n, Scheduling.Decide(k, y.p.h.active != {}))
    requires Scheduling.CountsInv(Scheduling.Next(y.n, Scheduling.Decide(k, y.p.h.active != {})))
    ensures var r := Scheduling.Next(y.n, Scheduling.Decide(k, y.p.h.active != {}));
            var closing := ClosingAfter(y, Decide(k));
            && r.running == y.n.running && r.queued == y.n.queued + (if closing && !y.closing then 1 else 0)
            && Filling(r) == (if DecisionAt(y.n, k).readiness.ReadyForProcess? then 1 else 0)
            && r.closePrepared == (y.n.closePrepared || (closing && !y.closing))
            && (y.closing ==> closing)
            && (closing && !y.closing ==> y.p.h.active == {} && !DecisionAt(y.n, k).readiness.ReadyForProcess?)
  {
    hide DecisionOf;
  }

  lemma StepKeepsHanded(m: Synchronisation.Node, p: Propagation.System, step: Synchronisation.Event)
    requires HandedMatch(m, p) && Synchronisation.Possible(m, step) && !step.DecideReadiness?
    ensures HandedMatch(Synchronisation.Next(m, step), p)
  {
    var r := Synchronisation.Next(m, step);
    if r.handed != m.handed {
      assert Invocations.Times(r.handed) == Invocations.Times(m.handed) + [m.phase.t];
    }
  }

  lemma DecisionKeepsHanded(m: Synchronisation.Node, p: Propagation.System, q: Propagation.System)
    requires HandedMatch(m, p) && Synchronisation.Possible(m, Synchronisation.DecideReadiness)
    requires var d := DecisionOf(m.phase.samples, m.processTimestamps, m.lastProcessed);
             q.prepared == p.prepared + if d.readiness.ReadyForProcess? then [d.minStreamTimestamp] else []
    ensures HandedMatch(Synchronisation.Next(m, Synchronisation.DecideReadiness), q)
  {
    hide DecisionOf;
  }

  lemma StepKeepsFrontiers(m: Synchronisation.Node, step: Synchronisation.Event, bound: Timestamp)
    requires Synchronisation.Inv(m) && Synchronisation.Possible(m, step) && BoundsFrontiers(m, bound)
    ensures BoundsFrontiers(Synchronisation.Next(m, step), bound)
  {
    hide Synchronisation.HandedInv, Synchronisation.PhaseInv, StreamHistory.Valid, Step, Frontier;
    match step
    case Produce(i, op) =>
      assert Synchronisation.StreamInv(m.phase, Synchronisation.Cut(m.handed), i, m.streams[i]);
      assert Enabled(m.streams[i].s, op);
      StepAdvances(m.types[i], m.streams[i], op);
    case PopNext => PopKeepsFrontier(m);
    case _ =>
  }

  lemma PopKeepsFrontier(m: Synchronisation.Node)
    requires Synchronisation.Inv(m) && Synchronisation.Possible(m, Synchronisation.PopNext)
    ensures var k := |m.phase.slots|;
            Frontier(m.streams[k]) <= Frontier(Step(AnyType, m.streams[k], Pop(m.phase.t)))
  {
    hide Synchronisation.HandedInv, Synchronisation.PhaseInv, StreamHistory.Valid, Step, Frontier, Enabled;
    var k := |m.phase.slots|;
    assert Synchronisation.StreamInv(m.phase, Synchronisation.Cut(m.handed), k, m.streams[k]);
    Synchronisation.FillNeverDrops(m);
    StepAdvances(AnyType, m.streams[k], Pop(m.phase.t));
  }

  lemma StepKeepsSamples(m: Synchronisation.Node, step: Synchronisation.Event, bound: Timestamp)
    requires Synchronisation.Possible(m, step) && BoundsFrontiers(m, bound) && BoundsSamples(m, bound)
    ensures BoundsSamples(Synchronisation.Next(m, step), bound)
  {
    hide Step;
  }

  /** What a decision that finds nothing reports bounds everything to come. */
  lemma LeastIsBound(m: Synchronisation.Node, bound: Timestamp)
    requires Synchronisation.Inv(m) && m.phase.Reading? && Synchronisation.Possible(m, Synchronisation.DecideReadiness)
    requires BoundsSamples(m, bound)
    requires DecisionOf(m.phase.samples, m.processTimestamps, m.lastProcessed).readiness.NotReady?
    ensures var least := DecisionOf(m.phase.samples, m.processTimestamps, m.lastProcessed).minStreamTimestamp;
            bound <= least && BoundsFrontiers(m, least)
  {
    hide *;
    var samples := m.phase.samples;
    LeastOfSamples(m, bound);
    NotReadyReportsLeast(samples, m.processTimestamps, m.lastProcessed);
    forall i: nat | i < |samples|
      ensures Min(MinPacket(samples, |samples|), MinBound(samples, |samples|)) <= Frontier(m.streams[i])
    {
      SampleIsBefore(m, i);
    }
    FrontiersAre(m, Min(MinPacket(samples, |samples|), MinBound(samples, |samples|)));
  }

  lemma FrontiersAre(m: Synchronisation.Node, bound: Timestamp)
    requires forall i: nat :: i < |m.streams| ==> bound <= Frontier(m.streams[i])
    ensures BoundsFrontiers(m, bound)
  {
  }

  lemma NotReadyReportsLeast(samples: seq<Sample>, processTimestamps: bool, last: Timestamp)
    requires DecisionOf(samples, processTimestamps, last).readiness.NotReady?
    ensures DecisionOf(samples, processTimestamps, last).minStreamTimestamp
            == Min(MinPacket(samples, |samples|), MinBound(samples, |samples|))
  {
  }

  lemma LeastOfSamples(m: Synchronisation.Node, bound: Timestamp)
    requires Synchronisation.Possible(m, Synchronisation.DecideReadiness) && BoundsSamples(m, bound)
    ensures m.phase.Reading? && |m.phase.samples| == |m.streams|
    ensures bound <= Min(MinPacket(m.phase.samples, |m.phase.samples|), MinBound(m.phase.samples, |m.phase.samples|))
  {
    MinimaAreReached(m.phase.samples, |m.phase.samples|);
  }

  lemma SampleIsBefore(m: Synchronisation.Node, i: nat)
    requires Synchronisation.Inv(m) && Synchronisation.Possible(m, Synchronisation.DecideReadiness) && i < |m.streams|
    ensures Min(MinPacket(m.phase.samples, |m.phase.samples|), MinBound(m.phase.samples, |m.phase.samples|))
            <= Frontier(m.streams[i])
  {
    hide Synchronisation.HandedInv, StreamHistory.Valid;
    MinimaAreLeast(m.phase.samples, |m.phase.samples|, i);
    assert Synchronisation.StreamInv(m.phase, Synchronisation.Cut(m.handed), i, m.streams[i]);
    hide MinBound, MinPacket;
  }

  /** Synchronisation takes at most one step. */
  lemma FollowedByOne(n: Scheduling.System, m: Synchronisation.Node, s: Scheduling.Event)
    requires Scheduling.Possible(n, s) && Joining.Refines(n, m, s)
    ensures var steps := Joining.Matching(n, m, s);
            && |steps| <= 1
            && (steps == [] ==> Followed(n, m, Some(s)) == m)
            && (steps != [] ==>
                  && Synchronisation.Possible(m, steps[0]) && (steps[0].DecideReadiness? ==> s.Decide?)
                  && Followed(n, m, Some(s)) == Synchronisation.Next(m, steps[0]))
  {
    hide Scheduling.Possible, Scheduling.Next, Synchronisation.Possible, Synchronisation.Next, Joining.Matches;
    var steps := Joining.Matching(n, m, s);
    if steps != [] {
      assert steps[1..] == [];
      var r := Synchronisation.Next(m, steps[0]);
      assert Synchronisation.End(r, []) == r;
    }
  }

  /** The streams and the input sets, in a step of scheduling other than a decision. */
  lemma FollowedKeeps(n: Scheduling.System, m: Synchronisation.Node, p: Propagation.System, s: Scheduling.Event)
    requires Joining.Related(n, m) && Scheduling.Possible(n, s) && Joining.Refines(n, m, s) && !s.Decide?
    requires HandedMatch(m, p)
    ensures HandedMatch(Followed(n, m, Some(s)), p)
    ensures forall bound :: BoundsFrontiers(m, bound) ==>
              BoundsFrontiers(Followed(n, m, Some(s)), bound)
              && (BoundsSamples(m, bound) ==> BoundsSamples(Followed(n, m, Some(s)), bound))
  {
    hide *;
    FollowedByOne(n, m, s);
    Joining.RelatedParts(n, m);
    var steps := Joining.Matching(n, m, s);
    if steps != [] {
      StepKeepsHanded(m, p, steps[0]);
      forall bound | BoundsFrontiers(m, bound)
        ensures BoundsFrontiers(Followed(n, m, Some(s)), bound)
        ensures BoundsSamples(m, bound) ==> BoundsSamples(Followed(n, m, Some(s)), bound)
      {
        StepKeepsFrontiers(m, steps[0], bound);
        if BoundsSamples(m, bound) {
          StepKeepsSamples(m, steps[0], bound);
        }
      }
    }
  }

  /** What a step of the scheduling of the node brings about. */
  lemma SchedulingStepKeeps(y: System, s: Scheduling.Event)
    requires Inv(y) && Scheduling.Possible(y.n, s)
    ensures Joining.Refines(y.n, y.m, s) && Scheduling.CountsInv(Scheduling.Next(y.n, s))
    ensures Joining.Related(Scheduling.Next(y.n, s), Followed(y.n, y.m, Some(s)))
  {
    hide *;
    InvParts(y);
    Joining.StepRefines(y.n, y.m, s);
    FollowedIsEnd(y.n, y.m, s);
    Joining.RelatedParts(Scheduling.Next(y.n, s), Followed(y.n, y.m, Some(s)));
  }

  lemma FollowedIsEnd(n: Scheduling.System, m: Synchronisation.Node, s: Scheduling.Event)
    requires Scheduling.Possible(n, s) && Joining.Refines(n, m, s)
    ensures Synchronisation.Execution(m, Joining.Matching(n, m, s))
    ensures Followed(n, m, Some(s)) == Synchronisation.End(m, Joining.Matching(n, m, s))
  {
    hide Scheduling.Possible, Scheduling.Next, Joining.Matching, Joining.Matches, Synchronisation.End;
    hide Synchronisation.Execution;
  }

  lemma ScheduleKeepsInv(y: System, s: Scheduling.Event)
    requires Inv(y) && CanStep(y, Schedule(s))
    ensures Inv(Next(y, Schedule(s)))
  {
    hide *;
    InvParts(y);
    ScheduleIs(y, s);
    SchedulingStepKeeps(y, s);
    FollowedKeeps(y.n, y.m, y.p, s);
    ScheduleKeepsCounts(y.n, y.p, y.closing, s);
    if y.bound.Some? {
      BoundIsAtBottom(y);
      BottomStays(y.n, s);
    }
    ScheduleKeepsBounds(y, Next(y, Schedule(s)));
    InvFromParts(Next(y, Schedule(s)));
  }

  lemma ScheduleIs(y: System, s: Scheduling.Event)
    requires CanStep(y, Schedule(s)) && !y.aborted
    ensures Scheduling.Possible(y.n, s) && !s.Decide? && !s.FinishTask? && (s.PushContext? ==> s.batchComplete)
    ensures IsLoopStep(s) ==> !Propagation.SchedulerPropagates(y.p)
    ensures s.EndOfLoop? ==> y.bound.None?
    ensures Next(y, Schedule(s)) ==
            System(Scheduling.Next(y.n, s), Followed(y.n, y.m, Some(s)), y.p, y.bound, y.closing, false)
  {
    hide Scheduling.Possible, Scheduling.Next, Followed;
  }

  lemma BoundIsAtBottom(y: System)
    requires BoundsMatch(y) && y.bound.Some?
    ensures AtBottom(y.n) && !Propagation.SchedulerPropagates(y.p)
  {
  }

  lemma ScheduleKeepsBounds(y: System, r: System)
    requires BoundsMatch(y) && r.p == y.p && r.bound == y.bound && (y.bound.Some? ==> AtBottom(r.n))
    requires forall bound :: BoundsFrontiers(y.m, bound) ==>
               BoundsFrontiers(r.m, bound) && (BoundsSamples(y.m, bound) ==> BoundsSamples(r.m, bound))
    ensures BoundsMatch(r)
  {
    hide BoundsFrontiers, BoundsSamples;
  }

  lemma InvFromParts(y: System)
    requires !y.aborted && Joining.Related(y.n, y.m) && Propagation.Inv(y.p)
    requires CountsMatch(y.n, y.p, y.closing) && HandedMatch(y.m, y.p) && BoundsMatch(y)
    ensures Inv(y)
  {
    hide Joining.Related, Propagation.Inv, CountsMatch, HandedMatch, BoundsMatch;
  }

  /** The contexts after a decision. */
  function Prepared(y: System, k: nat): Propagation.System
    requires CanStep(y, Decide(k)) && Fits(y, Decide(k))
  {
    var d := DecisionAt(y.n, k);
    if d.readiness.ReadyForProcess? then Propagation.Next(y.p, Propagation.Prepare(d.minStreamTimestamp)) else y.p
  }

  lemma DecideIs(y: System, k: nat)
    requires CanStep(y, Decide(k)) && Fits(y, Decide(k)) && !y.aborted
    ensures var s := Scheduling.Decide(k, y.p.h.active != {});
            && Scheduling.Possible(y.n, s)
            && Next(y, Decide(k)) == System(Scheduling.Next(y.n, s), Followed(y.n, y.m, Some(s)), Prepared(y, k),
                                            BoundAfter(y, Decide(k)), ClosingAfter(y, Decide(k)), false)
  {
    hide Scheduling.Possible, Scheduling.Next, Followed, Propagation.Possible, Propagation.Next;
    hide DecisionAt, ClosingAfter, BoundAfter;
  }

  lemma PreparedIs(y: System, k: nat)
    requires Inv(y) && CanStep(y, Decide(k)) && Fits(y, Decide(k))
    ensures Propagation.Inv(Prepared(y, k))
    ensures if DecisionAt(y.n, k).readiness.ReadyForProcess?
            then var e := Propagation.Prepare(DecisionAt(y.n, k).minStreamTimestamp);
                 Propagation.Effect(y.p, e, Prepared(y, k)) && e.t !in y.p.running
            else Prepared(y, k) == y.p
  {
    InvParts(y);
    hide Inv, Scheduling.Possible, Propagation.Possible, Propagation.Next, Propagation.Effect, Propagation.Inv;
    hide DecisionOf;
    if DecisionAt(y.n, k).readiness.ReadyForProcess? {
      var e := Propagation.Prepare(DecisionAt(y.n, k).minStreamTimestamp);
      Propagation.NextKeepsInv(y.p, e);
      Propagation.StepHasEffect(y.p, e);
    }
  }

  lemma ClosingDecides(n: Scheduling.System, m: Synchronisation.Node)
    requires Joining.Matches(n, m) && |n.loops| == 1 && n.loops[0].Reading? && |n.loops[0].samples| == |n.streams|
    ensures n.closePrepared ==> !DecisionAt(n, 0).readiness.ReadyForProcess?
  {
    DecidesAlike(n, m);
    hide DecisionOf;
  }

  /** The streams and the input sets, in a decision. */
  lemma DecisionKeepsStreams(y: System, k: nat)
    requires Inv(y) && CanStep(y, Decide(k)) && Fits(y, Decide(k))
    ensures Scheduling.Possible(y.n, Scheduling.Decide(k, y.p.h.active != {}))
    ensures var m := Followed(y.n, y.m, Some(Scheduling.Decide(k, y.p.h.active != {})));
            && HandedMatch(m, Prepared(y, k))
            && BoundsFrontiers(m, y.p.h.taskBound) && BoundsSamples(m, y.p.h.taskBound)
            && (DecisionAt(y.n, k).readiness.NotReady? ==>
                  var least := DecisionAt(y.n, k).minStreamTimestamp;
                  y.p.h.taskBound <= least && BoundsFrontiers(m, least))
  {
    hide *;
    var s := Scheduling.Decide(k, y.p.h.active != {});
    InvParts(y);
    ReadingIsNotBottom(y, k);
    PreparedIs(y, k);
    BoundsParts(y);
    DecideIsPossible(y, k);
    DecidesAlike(y.n, y.m);
    SchedulingStepKeeps(y, s);
    FollowedDecision(y.n, y.m, s);
    PreparedOf(y, k);
    if y.m.phase.ReadyToClose? {
      EndedDecision(y, k);
    } else {
      OpenDecision(y.m, y.p, Prepared(y, k), y.p.h.taskBound);
    }
  }

  lemma PreparedOf(y: System, k: nat)
    requires CanStep(y, Decide(k)) && Fits(y, Decide(k))
    requires if DecisionAt(y.n, k).readiness.ReadyForProcess?
             then Propagation.Effect(y.p, Propagation.Prepare(DecisionAt(y.n, k).minStreamTimestamp), Prepared(y, k))
             else Prepared(y, k) == y.p
    ensures var d := DecisionAt(y.n, k);
            Prepared(y, k).prepared == y.p.prepared + if d.readiness.ReadyForProcess? then [d.minStreamTimestamp]
                                                      else []
  {
    hide Fits, DecisionAt, Prepared;
  }

  lemma FollowedDecision(n: Scheduling.System, m: Synchronisation.Node, s: Scheduling.Event)
    requires Scheduling.Possible(n, s) && Joining.Refines(n, m, s) && s.Decide?
    ensures m.phase.Reading? ==>
              && Synchronisation.Possible(m, Synchronisation.DecideReadiness)
              && Followed(n, m, Some(s)) == Synchronisation.Next(m, Synchronisation.DecideReadiness)
    ensures !m.phase.Reading? ==> Followed(n, m, Some(s)) == m
  {
    FollowedByOne(n, m, s);
    hide Scheduling.Possible, Followed, Joining.Refines, Synchronisation.Next, Synchronisation.Possible;
  }

  lemma EndedDecision(y: System, k: nat)
    requires CanStep(y, Decide(k)) && Fits(y, Decide(k)) && y.m.phase.ReadyToClose? && HandedMatch(y.m, y.p)
    requires DecisionAt(y.n, k).readiness.ReadyForClose?
    ensures Prepared(y, k) == y.p
  {
    hide Fits, HandedMatch;
  }

  lemma OpenDecision(m: Synchronisation.Node, p: Propagation.System, q: Propagation.System, bound: Timestamp)
    requires m.phase.Reading? && Synchronisation.Inv(m) && Synchronisation.Possible(m, Synchronisation.DecideReadiness)
    requires HandedMatch(m, p) && BoundsFrontiers(m, bound) && BoundsSamples(m, bound)
    requires var d := DecisionOf(m.phase.samples, m.processTimestamps, m.lastProcessed);
             q.prepared == p.prepared + if d.readiness.ReadyForProcess? then [d.minStreamTimestamp] else []
    ensures var r, d := Synchronisation.Next(m, Synchronisation.DecideReadiness),
                        DecisionOf(m.phase.samples, m.processTimestamps, m.lastProcessed);
            && HandedMatch(r, q) && BoundsFrontiers(r, bound) && BoundsSamples(r, bound)
            && (d.readiness.NotReady? ==> bound <= d.minStreamTimestamp && BoundsFrontiers(r, d.minStreamTimestamp))
  {
    hide *;
    var step, d := Synchronisation.DecideReadiness, DecisionOf(m.phase.samples, m.processTimestamps, m.lastProcessed);
    DecisionKeepsHanded(m, p, q);
    StepKeepsFrontiers(m, step, bound);
    StepKeepsSamples(m, step, bound);
    if d.readiness.NotReady? {
      LeastIsBound(m, bound);
      StepKeepsFrontiers(m, step, d.minStreamTimestamp);
    }
  }

  lemma BoundsParts(y: System)
    requires BoundsMatch(y)
    ensures BoundsFrontiers(y.m, y.p.h.taskBound) && BoundsSamples(y.m, y.p.h.taskBound)
  {
    hide BoundsFrontiers, BoundsSamples;
  }

  lemma DecideKeepsInv(y: System, k: nat)
    requires Inv(y) && CanStep(y, Decide(k))
    ensures Inv(Next(y, Decide(k)))
  {
    hide *;
    var s, e := Scheduling.Decide(k, y.p.h.active != {}), Decide(k);
    InvParts(y);
    StepFits(y, e);
    DecideIs(y, k);
    PreparedIs(y, k);
    DecisionKeepsStreams(y, k);
    SchedulingStepKeeps(y, s);
    ReadingIsNotBottom(y, k);
    ClosingDecides(y.n, y.m);
    Propagation.ActiveMeansInFlight(y.p);
    DecisionKeepsCounts(y, k, Prepared(y, k));
    DecisionKeepsBounds(y, k, Next(y, e));
    InvFromParts(Next(y, e));
  }

  lemma DecisionKeepsBounds(y: System, k: nat, r: System)
    requires CanStep(y, Decide(k)) && Fits(y, Decide(k)) && CountsMatch(y.n, y.p, y.closing) && !AtBottom(y.n)
    requires r.n == Scheduling.Next(y.n, Scheduling.Decide(k, y.p.h.active != {})) && k == 0
    requires r.bound == BoundAfter(y, Decide(k))
    requires if DecisionAt(y.n, k).readiness.ReadyForProcess?
             then Propagation.Effect(y.p, Propagation.Prepare(DecisionAt(y.n, k).minStreamTimestamp), r.p)
             else r.p == y.p
    requires BoundsFrontiers(r.m, y.p.h.taskBound) && BoundsSamples(r.m, y.p.h.taskBound)
    requires DecisionAt(y.n, k).readiness.NotReady? ==>
               y.p.h.taskBound <= DecisionAt(y.n, k).minStreamTimestamp
                 && BoundsFrontiers(r.m, DecisionAt(y.n, k).minStreamTimestamp)
    ensures BoundsMatch(r)
  {
    hide BoundsFrontiers, BoundsSamples, DecisionOf, Filling;
    assert DecisionAt(y.n, k).readiness.NotReady? ==> AtBottom(r.n);
    assert !Propagation.SchedulerPropagates(y.p) && r.p.h.taskBound == y.p.h.taskBound;
    hide CountsMatch, Scheduling.Next, Fits, DecisionAt;
  }

  // ----- The output stream handler, and the end of tasks -----

  /** A step of propagation alone. */
  lemma PropagateIs(y: System, e: Event)
    requires CanStep(y, e) && Fits(y, e) && !y.aborted && (e.Post? || e.UpdateBound? || e.Advance?)
    ensures var q := PropagationStep(y, e).value;
            && PropagationStep(y, e).Some? && Propagation.Possible(y.p, q) && !q.Prepare?
               && (q.UpdateBound? <==> e.UpdateBound?)
            && (match q
                case Post(t) => t in y.p.running && y.n.queued + Filling(y.n) < |y.p.running|
                case UpdateBound(bound) => y.bound == Some(bound)
                case Advance => true
                case _ => false)
            && Next(y, e) == y.(p := Propagation.Next(y.p, q), bound := if e.UpdateBound? then None else y.bound)
  {
    hide Propagation.Possible, Propagation.Next, Filling;
  }

  lemma PropagateKeepsInv(y: System, e: Event)
    requires Inv(y) && CanStep(y, e) && (e.Post? || e.UpdateBound? || e.Advance?)
    ensures Inv(Next(y, e))
  {
    hide *;
    InvParts(y);
    StepFits(y, e);
    PropagateIs(y, e);
    var q := PropagationStep(y, e).value;
    Propagation.NextKeepsInv(y.p, q);
    Propagation.StepHasEffect(y.p, q);
    if y.bound.Some? {
      BoundIsAtBottom(y);
      BottomIsNotReading(y.n, y.m);
    }
    PropagationKeepsCounts(y, q, Propagation.Next(y.p, q));
    PropagationKeepsStreams(y, q, Next(y, e));
    InvFromParts(Next(y, e));
  }

  lemma BottomIsNotReading(n: Scheduling.System, m: Synchronisation.Node)
    requires Joining.Matches(n, m) && AtBottom(n)
    ensures !m.phase.Reading?
  {
  }

  lemma PropagationKeepsStreams(y: System, q: Propagation.Event, r: System)
    requires HandedMatch(y.m, y.p) && BoundsMatch(y) && Propagation.Effect(y.p, q, r.p) && !q.Prepare?
    requires r == y.(p := r.p, bound := r.bound) && (q.UpdateBound? ==> !y.m.phase.Reading?)
    requires if q.UpdateBound? then r.bound == None && y.bound == Some(q.bound) else r.bound == y.bound
    ensures HandedMatch(r.m, r.p) && BoundsMatch(r)
  {
    hide BoundsFrontiers;
  }

  /** The end of a task. */
  lemma EndIs(y: System, e: Event)
    requires CanStep(y, e) && Fits(y, e) && !y.aborted && (e.EndTask? || e.EndClose?)
    ensures var s := Scheduling.FinishTask;
            && Scheduling.Possible(y.n, s) && (e.EndTask? ==> Propagation.Possible(y.p, Propagation.EndTask))
            && Next(y, e) == System(Scheduling.Next(y.n, s), Followed(y.n, y.m, Some(s)),
                                    if e.EndTask? then Propagation.Next(y.p, Propagation.EndTask) else y.p, y.bound,
                                    y.closing && e.EndTask?, false)
    ensures e.EndClose? ==> y.closing && y.n.queued == 0
  {
    hide Scheduling.Possible, Scheduling.Next, Followed, Propagation.Possible, Propagation.Next;
  }

  lemma EndKeepsInv(y: System, e: Event)
    requires Inv(y) && CanStep(y, e) && (e.EndTask? || e.EndClose?)
    ensures Inv(Next(y, e))
  {
    hide *;
    var s := Scheduling.FinishTask;
    InvParts(y);
    StepFits(y, e);
    EndIs(y, e);
    SchedulingStepKeeps(y, s);
    FollowedKeeps(y.n, y.m, y.p, s);
    var r := Next(y, e);
    EndHasEffect(y, e, r.p);
    FinishKeepsCounts(y.n, y.p, y.closing, r.p, r.closing);
    if y.bound.Some? {
      BoundIsAtBottom(y);
      BottomStays(y.n, s);
    }
    EndKeepsStreams(y, r);
    InvFromParts(r);
  }

  lemma EndHasEffect(y: System, e: Event, q: Propagation.System)
    requires Propagation.Inv(y.p) && (e.EndTask? || e.EndClose?)
    requires e.EndTask? ==> Propagation.Possible(y.p, Propagation.EndTask)
    requires q == if e.EndTask? then Propagation.Next(y.p, Propagation.EndTask) else y.p
    ensures Propagation.Inv(q) && q.posted == y.p.posted - if e.EndTask? then 1 else 0
    ensures q.running == y.p.running && q.h.active <= y.p.h.active && q.prepared == y.p.prepared
            && q.h.taskBound == y.p.h.taskBound
    ensures Propagation.SchedulerPropagates(q) ==> Propagation.SchedulerPropagates(y.p)
  {
    hide Propagation.Inv, Propagation.Possible, Propagation.Next;
    if e.EndTask? {
      Propagation.NextKeepsInv(y.p, Propagation.EndTask);
      Propagation.StepHasEffect(y.p, Propagation.EndTask);
    }
  }

  lemma EndKeepsStreams(y: System, r: System)
    requires BoundsMatch(y) && HandedMatch(r.m, y.p) && r.bound == y.bound && (y.bound.Some? ==> AtBottom(r.n))
    requires r.p.prepared == y.p.prepared && r.p.h.taskBound == y.p.h.taskBound
    requires Propagation.SchedulerPropagates(r.p) ==> Propagation.SchedulerPropagates(y.p)
    requires forall bound :: BoundsFrontiers(y.m, bound) ==>
               BoundsFrontiers(r.m, bound) && (BoundsSamples(y.m, bound) ==> BoundsSamples(r.m, bound))
    ensures HandedMatch(r.m, r.p) && BoundsMatch(r)
  {
    hide BoundsFrontiers, BoundsSamples;
  }

  /** In every step the parts meet what they ask of each other, and go on doing so. */
  lemma NextKeepsInv(y: System, e: Event)
    requires Inv(y) && CanStep(y, e)
    ensures Fits(y, e) && Inv(Next(y, e))
  {
    hide *;
    StepFits(y, e);
    match e
    case Schedule(s) => ScheduleKeepsInv(y, s);
    case Decide(k) => DecideKeepsInv(y, k);
    case EndTask => EndKeepsInv(y, e);
    case EndClose => EndKeepsInv(y, e);
    case _ => PropagateKeepsInv(y, e);
  }

  // ----- The guarantees -----

  ghost predicate Execution(y: System, events: seq<Event>)
    decreases |events|
  {
    events == [] || (CanStep(y, events[0]) && Execution(Next(y, events[0]), events[1..]))
  }

  ghost function End(y: System, events: seq<Event>): System
    requires Execution(y, events)
    decreases |events|
  {
    if events == [] then y else End(Next(y, events[0]), events[1..])
  }

  lemma {:induction false} ExecutionKeepsInv(y: System, events: seq<Event>)
    requires Inv(y) && Execution(y, events)
    ensures Inv(End(y, events))
    decreases |events|
  {
    hide Inv, Next, CanStep;
    if events != [] {
      NextKeepsInv(y, events[0]);
      ExecutionKeepsInv(Next(y, events[0]), events[1..]);
    }
  }

  lemma InvOfEnd(types: seq<PacketType>, processTimestamps: bool, maxInFlight: nat, maxQueueSize: int,
                 events: seq<Event>)
    requires types != [] && maxInFlight > 0
    requires Execution(Start(types, processTimestamps, maxInFlight, maxQueueSize), events)
    ensures Inv(End(Start(types, processTimestamps, maxInFlight, maxQueueSize), events))
  {
    hide *;
    StartSatisfiesInv(types, processTimestamps, maxInFlight, maxQueueSize);
    ExecutionKeepsInv(Start(types, processTimestamps, maxInFlight, maxQueueSize), events);
  }

  /** From the start of a run, in every interleaving of a node's threads: no part asks
      what another does not give, and no CHECK fails; outputs are propagated in the order
      of the synchronised input sets, whatever the order in which the invocations end;
      and once no task is left, for every input set that was handed out. */
  lemma OutputsFollowInputs(types: seq<PacketType>, processTimestamps: bool, maxInFlight: nat, maxQueueSize: int,
                            events: seq<Event>)
    requires types != [] && maxInFlight > 0
    requires Execution(Start(types, processTimestamps, maxInFlight, maxQueueSize), events)
    ensures var y := End(Start(types, processTimestamps, maxInFlight, maxQueueSize), events);
            && !y.aborted && !y.n.c.aborted && !y.p.aborted
            && y.p.prepared == Invocations.Times(y.m.handed) + (if y.m.phase.Filling? then [y.m.phase.t] else [])
            && y.p.sent <= y.p.prepared && Propagation.Increasing(y.p.sent)
            && (y.n.queued + y.n.running == 0 && y.n.loops == [] && y.p.at.Nobody? ==>
                  y.p.sent == Invocations.Times(y.m.handed) && y.p.h.active == {} && Propagation.BoundIsSent(y.p))
  {
    hide *;
    InvOfEnd(types, processTimestamps, maxInFlight, maxQueueSize, events);
    var y := End(Start(types, processTimestamps, maxInFlight, maxQueueSize), events);
    InvParts(y);
    PreparedIsHanded(y);
    SchedulingHolds(y.n);
    PropagationHolds(y.p);
    if y.n.queued + y.n.running == 0 && y.n.loops == [] && y.p.at.Nobody? {
      NothingRuns(y);
      Propagation.NoContextIsLeft(y.p);
      PropagationRests(y.p);
    }
  }

  lemma PreparedIsHanded(y: System)
    requires HandedMatch(y.m, y.p) && Joining.Matches(y.n, y.m)
    ensures y.p.prepared == Invocations.Times(y.m.handed) + if y.m.phase.Filling? then [y.m.phase.t] else []
    ensures y.n.loops == [] ==> y.p.prepared == Invocations.Times(y.m.handed)
    ensures y.n.closePrepared ==> y.m.phase.ReadyToClose?
  {
    hide Joining.StreamsMatch;
  }

  lemma SchedulingHolds(n: Scheduling.System)
    requires Scheduling.CountsInv(n)
    ensures !n.c.aborted
  {
  }

  lemma PropagationHolds(p: Propagation.System)
    requires Propagation.Inv(p)
    ensures !p.aborted && p.sent <= p.prepared && Propagation.Increasing(p.sent)
  {
    hide Propagation.Increasing, Propagation.Lists;
    Propagation.SentIncreases(p);
  }

  lemma PropagationRests(p: Propagation.System)
    requires Propagation.Inv(p) && p.at.Nobody? && p.sent == p.prepared
    ensures Propagation.BoundIsSent(p)
  {
    hide Propagation.OrderInv, Propagation.ContextsInv;
  }

  lemma NothingRuns(y: System)
    requires CountsMatch(y.n, y.p, y.closing) && y.n.queued + y.n.running == 0 && y.n.loops == []
    ensures y.p.running == {}
  {
  }

  /** The call to Close comes last: once it is prepared, the whole join of the input
      streams was handed out, and the outputs of every input set were propagated. */
  lemma CloseComesLast(types: seq<PacketType>, processTimestamps: bool, maxInFlight: nat, maxQueueSize: int,
                       events: seq<Event>)
    requires types != [] && maxInFlight > 0
    requires Execution(Start(types, processTimestamps, maxInFlight, maxQueueSize), events)
    ensures var y := End(Start(types, processTimestamps, maxInFlight, maxQueueSize), events);
            y.n.closePrepared ==>
              && y.p.sent == Invocations.Times(y.m.handed)
              && Synchronisation.IsJoin(Synchronisation.Accepted(y.m), Synchronisation.WithPackets(y.m.handed))
  {
    hide *;
    InvOfEnd(types, processTimestamps, maxInFlight, maxQueueSize, events);
    var y := End(Start(types, processTimestamps, maxInFlight, maxQueueSize), events);
    InvParts(y);
    PreparedIsHanded(y);
    if y.n.closePrepared {
      NoContextAtClose(y);
      AllIsSent(y.p);
      StreamsAreThere(y);
      Synchronisation.ClosingIsComplete(y.m, 0, []);
    }
  }

  lemma NoContextAtClose(y: System)
    requires CountsMatch(y.n, y.p, y.closing) && y.n.closePrepared
    ensures y.p.h.active == {}
  {
  }

  lemma StreamsAreThere(y: System)
    requires Scheduling.CountsInv(y.n) && Joining.Matches(y.n, y.m)
    ensures |y.m.streams| > 0
  {
  }

  lemma AllIsSent(p: Propagation.System)
    requires Propagation.Inv(p) && p.h.active == {}
    ensures p.sent == p.prepared
  {
    Propagation.ListsFront(Propagation.Rest(p), p.h.active);
    hide Propagation.Lists, Propagation.Increasing;
  }
}
