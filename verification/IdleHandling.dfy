/** What the scheduler does when all queues are idle: quit, activate the next layer of
    sources, or break a throttling deadlock; and when that goes on for ever. */
module IdleHandling {
  import opened RunStates
  import Throttling

  /** What state_mutex_ guards, with the full streams recorded for each node. Sources
      are opened, then wait in `queue`, then are active; `layers` gives their layer. */
  datatype SchedulerState = SchedulerState(
    state: RunState,
    nonIdleQueues: int,
    hasError: bool,
    inputsClosed: bool,
    unopened: set<nat>,
    queue: set<nat>,
    active: seq<nat>,
    closed: set<nat>,
    full: seq<set<nat>>)

  datatype Graph = Graph(layers: nat -> int, calculators: nat, outputs: set<nat>, reportDeadlock: bool)

  /** What other threads did while the lock was released: no packet was added, so no
      stream became full. `drains` are the streams whose becomes-not-full callback ran;
      `owed` are those that have room but whose callback is still owed when the lock is
      taken again, so that their record is stale. */
  datatype Change = Change(
    state: RunState, nonIdleQueues: int, error: bool, inputsClosed: bool,
    opens: set<nat>, closes: set<nat>, drains: set<nat>, owed: set<nat>)

  function Changed(s: SchedulerState, c: Change): SchedulerState {
    s.(state := c.state, nonIdleQueues := c.nonIdleQueues,
       hasError := s.hasError || c.error, inputsClosed := s.inputsClosed || c.inputsClosed,
       unopened := s.unopened - c.opens, queue := s.queue + (s.unopened * c.opens),
       closed := s.closed + c.closes,
       full := seq(|s.full|, n requires 0 <= n < |s.full| => s.full[n] - c.drains))
  }

  function FullStreams(g: Graph, s: SchedulerState): set<nat> {
    Throttling.MayGrow(s.full, |s.full|, g.outputs)
  }

  predicate InputThrottled(g: Graph, s: SchedulerState) {
    Throttling.CountThrottled(s.full, g.calculators, |s.full|) > 0
  }

  /** CleanupActiveSources: drops closed sources from the back. */
  function Cleaned(active: seq<nat>, closed: set<nat>): (r: seq<nat>)
    ensures r <= active && (r != [] ==> r[|r| - 1] !in closed)
    ensures forall k :: |r| <= k < |active| ==> active[k] in closed
  {
    if active != [] && active[|active| - 1] in closed then Cleaned(active[..|active| - 1], closed) else active
  }

  /** A source below every opened one is still not opened. */
  predicate LowerLayerUnopened(g: Graph, s: SchedulerState) {
    exists n :: n in s.unopened && forall m :: m in s.queue ==> g.layers(n) < g.layers(m)
  }

  predicate InNextLayer(g: Graph, queue: set<nat>, n: nat) {
    n in queue && forall m :: m in queue ==> g.layers(n) <= g.layers(m)
  }

  function NextLayer(g: Graph, queue: set<nat>): set<nat> {
    set n | n in queue && InNextLayer(g, queue, n)
  }

  /** UnthrottleSources: growing a stream whose record is stale asks for no callback, and
      leaves it recorded until the owed one runs. */
  function Unthrottled(g: Graph, s: SchedulerState, owed: set<nat>): SchedulerState {
    if g.reportDeadlock then s.(hasError := true)
    else s.(full := seq(|s.full|, n requires 0 <= n < |s.full| => s.full[n] * (g.outputs + owed)))
  }

  predicate MayHandle(s: SchedulerState) {
    s.nonIdleQueues == 0 && (s.state.Running? || s.state.Cancelling?)
  }

  predicate MustQuit(s: SchedulerState) {
    s.hasError || (s.active == [] && s.queue == {} && s.inputsClosed)
  }

  /** One iteration of the loop, with what other threads do while it runs: the new
      state, and whether the loop goes on. */
  ghost predicate Iterates(g: Graph, s: SchedulerState, c: Change, r: SchedulerState, again: bool) {
    var t := s.(active := Cleaned(s.active, s.closed));
    if MustQuit(t) then r == t.(state := Terminated) && !again
    else if t.active == [] && t.queue != {} then
      again && if LowerLayerUnopened(g, t) then r == (if t.inputsClosed then t.(hasError := true) else t)
               else Activates(g, t, c, r)
    else if t.active != [] || InputThrottled(g, t) then
      again == (FullStreams(g, t) != {}) && r == Changed(if again then Unthrottled(g, t, c.owed) else t, c)
    else r == t && !again
  }

  /** The next layer becomes active, in some order. */
  ghost predicate Activates(g: Graph, t: SchedulerState, c: Change, r: SchedulerState) {
    && (forall n :: n in r.active <==> n in NextLayer(g, t.queue))
    && r == Changed(t.(queue := t.queue - NextLayer(g, t.queue), active := r.active), c)
  }

  /** The branch of the loop that changes nothing. */
  predicate Blocked(g: Graph, s: SchedulerState) {
    && MayHandle(s) && !s.hasError && !s.inputsClosed
    && Cleaned(s.active, s.closed) == [] && s.queue != {} && LowerLayerUnopened(g, s)
  }

  /** A pass that breaks no deadlock, although it says so: every full stream that may
      grow has room by now, and its callback is still owed. */
  predicate Stalled(g: Graph, s: SchedulerState, c: Change) {
    && !g.reportDeadlock && FullStreams(g, s) != {}
    && FullStreams(g, s) <= c.owed - c.drains
    && !MustQuit(s.(active := Cleaned(s.active, s.closed)))
    && (Cleaned(s.active, s.closed) != [] || s.queue == {})
  }

  class Scheduler {
    const graph: Graph
    var state: RunState
    var nonIdleQueueCount: int
    var hasError: bool
    var graphInputStreamsClosed: bool
    var unopenedSources: set<nat>
    var sourcesQueue: set<nat>
    var activeSources: seq<nat>
    var closedNodes: set<nat>
    var fullInputStreams: seq<set<nat>>
    var handlingIdle: bool

    ghost function State(): SchedulerState
      reads this
    {
      SchedulerState(state, nonIdleQueueCount, hasError, graphInputStreamsClosed, unopenedSources,
                     sourcesQueue, activeSources, closedNodes, fullInputStreams)
    }

    method CleanupActiveSources()
      modifies `activeSources
      ensures activeSources == Cleaned(old(activeSources), closedNodes)
    {
      while activeSources != [] && activeSources[|activeSources| - 1] in closedNodes
        invariant Cleaned(activeSources, closedNodes) == Cleaned(old(activeSources), closedNodes)
        decreases |activeSources|
      {
        activeSources := activeSources[..|activeSources| - 1];
      }
    }

    /** Other threads, while the lock is released. */
    method Released(c: Change)
      modifies this
      ensures State() == Changed(old(State()), c) && handlingIdle == old(handlingIdle)
    {
      state, nonIdleQueueCount := c.state, c.nonIdleQueues;
      hasError, graphInputStreamsClosed := hasError || c.error, graphInputStreamsClosed || c.inputsClosed;
      sourcesQueue := sourcesQueue + (unopenedSources * c.opens);
      unopenedSources := unopenedSources - c.opens;
      closedNodes := closedNodes + c.closes;
      var full := fullInputStreams;
      fullInputStreams := seq(|full|, n requires 0 <= n < |full| => full[n] - c.drains);
      assert fullInputStreams == Changed(old(State()), c).full;
    }

    method UnopenedBelow() returns (below: bool)
      ensures below <==> LowerLayerUnopened(graph, State())
    {
      below := exists n :: n in unopenedSources && forall m :: m in sourcesQueue ==> graph.layers(n) < graph.layers(m);
    }

    /** Activates the sources of the lowest layer that waits, unless an even lower one
        is not opened: an error if no graph input can bring it about. */
    method TryToScheduleNextSourceLayer(c: Change) returns (activated: bool)
      requires activeSources == [] && sourcesQueue != {}
      modifies this
      ensures handlingIdle == old(handlingIdle)
      ensures activated <==> !LowerLayerUnopened(graph, old(State()))
      ensures !activated ==>
        State() == if old(graphInputStreamsClosed) then old(State()).(hasError := true) else old(State())
      ensures activated ==> Activates(graph, old(State()), c, State())
    {
      var below := UnopenedBelow();
      if below {
        if graphInputStreamsClosed {
          hasError := true;
        }
        return false;
      }
      MoveNextLayer();
      Released(c);
      return true;
    }

    method TopSource() returns (n: nat)
      requires sourcesQueue != {}
      ensures InNextLayer(graph, sourcesQueue, n)
    {
      n :| n in sourcesQueue;
      var rest := sourcesQueue - {n};
      while rest != {}
        invariant n in sourcesQueue && forall m :: m in sourcesQueue - rest ==> graph.layers(n) <= graph.layers(m)
      {
        var m :| m in rest;
        rest := rest - {m};
        if graph.layers(m) < graph.layers(n) {
          n := m;
        }
      }
    }

    /** Moves the top source, and those after it in the same layer. */
    method MoveNextLayer()
      requires activeSources == [] && sourcesQueue != {}
      modifies `activeSources, `sourcesQueue
      ensures forall n :: n in activeSources <==> n in NextLayer(graph, old(sourcesQueue))
      ensures sourcesQueue == old(sourcesQueue) - NextLayer(graph, old(sourcesQueue))
    {
      ghost var layer := NextLayer(graph, sourcesQueue);
      var n := TopSource();
      activeSources, sourcesQueue := [n], sourcesQueue - {n};
      while sourcesQueue != {}
        invariant activeSources != [] && forall m :: m in activeSources ==> m in layer
        invariant forall m :: m in old(sourcesQueue) <==> m in sourcesQueue || m in activeSources
        invariant forall m :: m in sourcesQueue ==> m !in activeSources
      {
        n := TopSource();
        if graph.layers(n) != graph.layers(activeSources[|activeSources| - 1]) {
          break;
        }
        activeSources, sourcesQueue := activeSources + [n], sourcesQueue - {n};
      }
    }

    method UnthrottleSources(c: Change) returns (did: bool)
      modifies this
      ensures handlingIdle == old(handlingIdle)
      ensures did == (FullStreams(graph, old(State())) != {})
      ensures State() == Changed(if did then Unthrottled(graph, old(State()), c.owed) else old(State()), c)
    {
      did := Throttling.MayGrow(fullInputStreams, |fullInputStreams|, graph.outputs) != {};
      if did {
        if graph.reportDeadlock {
          hasError := true;
        } else {
          var full := fullInputStreams;
          fullInputStreams := seq(|full|, n requires 0 <= n < |full| => full[n] * (graph.outputs + c.owed));
        }
      }
      Released(c);
    }

    /** One pass of the loop. */
    method Iterate(c: Change) returns (again: bool)
      requires MayHandle(State())
      modifies this
      ensures handlingIdle == old(handlingIdle)
      ensures Iterates(graph, old(State()), c, State(), again)
    {
      CleanupActiveSources();
      if hasError || (activeSources == [] && sourcesQueue == {} && graphInputStreamsClosed) {
        state := Terminated;
        return false;
      }
      if activeSources == [] && sourcesQueue != {} {
        var activated := TryToScheduleNextSourceLayer(c);
        return true;
      }
      if activeSources != [] || Throttling.CountThrottled(fullInputStreams, graph.calculators, |fullInputStreams|) > 0 {
        again := UnthrottleSources(c);
        return again;
      }
      return false;
    }

    /** The loop. In the branch that changes nothing the source goes round for ever,
        with the lock held; this method then returns `blocked`. `changes(k)` is what
        other threads do during pass `k`; from pass `settled` on, they leave no callback
        owed. */
    method HandleWhileIdle(changes: nat -> Change, ghost settled: nat)
      returns (blocked: bool, ghost passes: seq<SchedulerState>)
      requires sourcesQueue !! unopenedSources && SettledFrom(changes, settled)
      modifies this
      ensures handlingIdle == old(handlingIdle)
      ensures IsRun(graph, passes, changes) && passes[0] == old(State())
      ensures |passes| - 1 <= Measure(graph, old(State())) + settled
      ensures Stops(graph, passes, changes, blocked, State())
    {
      hide IsRun, Iterates, Blocked, Measure, SettledFrom, Stops, Unsettled, Changed;
      assert Unsettled(settled, 0) <= settled by {
        UnsettledAtFirst(settled);
      }
      blocked, passes := false, [State()];
      ghost var start := State();
      StartsRun(graph, start, changes);
      var again := true;
      var k := 0;
      while again && nonIdleQueueCount == 0 && (state == Running || state == Cancelling)
        invariant handlingIdle == old(handlingIdle) && !blocked && |passes| == k + 1 && passes[0] == start
        invariant IsRun(graph, passes, changes) && passes[k].queue !! passes[k].unopened
        invariant Measure(graph, passes[k]) + Unsettled(settled, k) + k <= Measure(graph, start) + settled
        invariant if again then State() == passes[k]
                  else Stops(graph, passes, changes, false, State()) && MayHandle(passes[k])
        decreases again, Measure(graph, passes[k]) + Unsettled(settled, k)
      {
        blocked := IsBlocked();
        if blocked {
          StopsAtBlocked(graph, passes, changes);
          break;
        }
        ghost var before := State();
        again := Iterate(changes(k));
        if again {
          PassUsesUp(graph, before, changes, settled, k, State());
          RunExtends(graph, passes, changes, State());
          passes := passes + [State()];
          k := k + 1;
        } else {
          StopsAtLast(graph, passes, changes, State());
        }
      }
      if again && !blocked {
        StopsAtBusy(graph, passes, changes);
      }
    }

    method HandleIdle(changes: nat -> Change, ghost settled: nat)
      returns (blocked: bool, ghost passes: seq<SchedulerState>)
      requires sourcesQueue !! unopenedSources && SettledFrom(changes, settled)
      modifies this
      ensures handlingIdle == old(handlingIdle)
      ensures old(handlingIdle) ==> !blocked && State() == old(State())
      ensures !old(handlingIdle) ==>
        && IsRun(graph, passes, changes) && passes[0] == old(State())
        && |passes| - 1 <= Measure(graph, old(State())) + settled
        && Stops(graph, passes, changes, blocked, State())
    {
      if handlingIdle {
        return false, [];
      }
      handlingIdle := true;
      blocked, passes := HandleWhileIdle(changes, settled);
      handlingIdle := false;
    }

    method IsBlocked() returns (blocked: bool)
      requires MayHandle(State())
      ensures blocked <==> Blocked(graph, State())
    {
      var below := UnopenedBelow();
      return !hasError && !graphInputStreamsClosed && sourcesQueue != {} && below
             && Cleaned(activeSources, closedNodes) == [];
    }
  }

  /** From pass `settled` on, no callback is owed when the lock is taken again. */
  ghost predicate SettledFrom(changes: nat -> Change, settled: nat) {
    forall k: nat :: k >= settled ==> changes(k).owed == {}
  }

  function Unsettled(settled: nat, k: nat): nat {
    if k < settled then settled - k else 0
  }

  /** Consecutive passes of the loop. */
  ghost predicate IsRun(g: Graph, passes: seq<SchedulerState>, changes: nat -> Change) {
    && passes != []
    && (forall k :: 0 <= k < |passes| - 1 ==>
          MayHandle(passes[k]) && Iterates(g, passes[k], changes(k), passes[k + 1], true))
  }

  /** Why the loop stopped after its passes: it is blocked, the queues are busy or the
      scheduler is not running, or the last pass said so. */
  ghost predicate Stops(g: Graph, passes: seq<SchedulerState>, changes: nat -> Change, blocked: bool, r: SchedulerState)
    requires passes != []
  {
    var last := passes[|passes| - 1];
    if blocked then Blocked(g, last) && r == last
    else if MayHandle(last) then !Blocked(g, last) && Iterates(g, last, changes(|passes| - 1), r, false)
    else r == last
  }

  lemma UnsettledAtFirst(settled: nat)
    ensures Unsettled(settled, 0) <= settled
  {
  }

  lemma StopsAtBlocked(g: Graph, passes: seq<SchedulerState>, changes: nat -> Change)
    requires passes != [] && Blocked(g, passes[|passes| - 1])
    ensures Stops(g, passes, changes, true, passes[|passes| - 1])
  {
  }

  lemma StopsAtLast(g: Graph, passes: seq<SchedulerState>, changes: nat -> Change, r: SchedulerState)
    requires passes != [] && MayHandle(passes[|passes| - 1]) && !Blocked(g, passes[|passes| - 1])
    requires Iterates(g, passes[|passes| - 1], changes(|passes| - 1), r, false)
    ensures Stops(g, passes, changes, false, r)
  {
  }

  lemma StopsAtBusy(g: Graph, passes: seq<SchedulerState>, changes: nat -> Change)
    requires passes != [] && !MayHandle(passes[|passes| - 1])
    ensures Stops(g, passes, changes, false, passes[|passes| - 1])
  {
  }

  lemma StartsRun(g: Graph, s: SchedulerState, changes: nat -> Change)
    ensures IsRun(g, [s], changes)
  {
  }

  lemma RunExtends(g: Graph, passes: seq<SchedulerState>, changes: nat -> Change, r: SchedulerState)
    requires IsRun(g, passes, changes) && MayHandle(passes[|passes| - 1])
    requires Iterates(g, passes[|passes| - 1], changes(|passes| - 1), r, true)
    ensures IsRun(g, passes + [r], changes)
  {
  }

  // ----- Progress -----

  /** What a pass uses up: the error still to be recorded, the sources still to be
      activated, and the full streams still to be given room. */
  function Measure(g: Graph, s: SchedulerState): nat {
    (if s.hasError then 0 else 1) + |s.queue + s.unopened| + |FullStreams(g, s)|
  }

  lemma SmallerSet(a: set<nat>, b: set<nat>)
    requires a <= b
    ensures |a| <= |b| && (a != b ==> |a| < |b|)
  {
    assert b == a + (b - a);
  }

  lemma ChangesUseUp(g: Graph, s: SchedulerState, c: Change)
    ensures Measure(g, Changed(s, c)) <= Measure(g, s)
    ensures s.queue !! s.unopened ==> Changed(s, c).queue !! Changed(s, c).unopened
  {
    var r := Changed(s, c);
    SmallerSet(r.queue + r.unopened, s.queue + s.unopened);
    forall i | i in FullStreams(g, r) ensures i in FullStreams(g, s) {
      Throttling.MayGrowIsExact(r.full, |r.full|, g.outputs, i);
      Throttling.MayGrowIsExact(s.full, |s.full|, g.outputs, i);
    }
    SmallerSet(FullStreams(g, r), FullStreams(g, s));
  }

  /** What breaking a deadlock leaves of the full streams that may grow. */
  lemma UnthrottledFullStreams(g: Graph, s: SchedulerState, c: Change)
    requires !g.reportDeadlock
    ensures FullStreams(g, Changed(Unthrottled(g, s, c.owed), c)) == FullStreams(g, s) * (c.owed - c.drains)
  {
    var r := Changed(Unthrottled(g, s, c.owed), c);
    forall i: nat ensures i in FullStreams(g, r) <==> i in FullStreams(g, s) * (c.owed - c.drains) {
      Throttling.MayGrowIsExact(r.full, |r.full|, g.outputs, i);
      Throttling.MayGrowIsExact(s.full, |s.full|, g.outputs, i);
      if i !in g.outputs && i in c.owed - c.drains {
        assert forall k :: 0 <= k < |s.full| ==> (i in r.full[k] <==> i in s.full[k]);
      }
    }
  }

  lemma UnthrottlingUsesUp(g: Graph, s: SchedulerState, c: Change)
    requires !s.hasError && (!g.reportDeadlock ==> !(FullStreams(g, s) <= c.owed - c.drains))
    ensures Measure(g, Changed(Unthrottled(g, s, c.owed), c)) < Measure(g, s)
  {
    var r := Changed(Unthrottled(g, s, c.owed), c);
    if g.reportDeadlock {
      ChangesUseUp(g, s.(hasError := true), c);
    } else {
      UnthrottledFullStreams(g, s, c);
      SmallerSet(FullStreams(g, r), FullStreams(g, s));
      SmallerSet(r.queue + r.unopened, s.queue + s.unopened);
    }
  }

  lemma {:induction false} LowestLayer(g: Graph, queue: set<nat>) returns (n: nat)
    requires queue != {}
    ensures InNextLayer(g, queue, n)
    decreases |queue|
  {
    var k :| k in queue;
    n := k;
    if queue - {k} != {} {
      var m := LowestLayer(g, queue - {k});
      n := if g.layers(m) < g.layers(k) then m else k;
    }
    assert queue == (queue - {k}) + {k};
  }

  lemma ActivatingUsesUp(g: Graph, t: SchedulerState, c: Change, r: SchedulerState)
    requires Activates(g, t, c, r) && t.queue != {} && !LowerLayerUnopened(g, t) && t.queue !! t.unopened
    ensures Measure(g, r) < Measure(g, t) && r.queue !! r.unopened
  {
    var m := t.(queue := t.queue - NextLayer(g, t.queue), active := r.active);
    ChangesUseUp(g, m, c);
    var n := LowestLayer(g, t.queue);
    assert n in t.queue + t.unopened && n !in m.queue + m.unopened;
    SmallerSet(m.queue + m.unopened, t.queue + t.unopened);
  }

  lemma SameMeasure(g: Graph, s: SchedulerState, t: SchedulerState)
    requires t == s.(active := t.active)
    ensures Measure(g, t) == Measure(g, s)
  {
  }

  lemma RecordingUsesUp(g: Graph, s: SchedulerState)
    requires !s.hasError
    ensures Measure(g, s.(hasError := true)) < Measure(g, s)
  {
  }

  /** Every pass that goes on records an error, activates a source, or gives room to a
      full stream, except in the blocked state and in a stalled pass. */
  lemma PassMakesProgress(g: Graph, s: SchedulerState, c: Change, r: SchedulerState)
    requires MayHandle(s) && Iterates(g, s, c, r, true) && s.queue !! s.unopened
    requires !Blocked(g, s) && !Stalled(g, s, c)
    ensures Measure(g, r) < Measure(g, s) && r.queue !! r.unopened
  {
    hide Activates, Changed, Measure;
    var t := s.(active := Cleaned(s.active, s.closed));
    assert FullStreams(g, t) == FullStreams(g, s) && LowerLayerUnopened(g, t) == LowerLayerUnopened(g, s);
    SameMeasure(g, s, t);
    if t.active == [] && t.queue != {} {
      if LowerLayerUnopened(g, t) {
        RecordingUsesUp(g, t);
      } else {
        ActivatingUsesUp(g, t, c, r);
      }
    } else {
      UnthrottlingUsesUp(g, t, c);
      ChangesUseUp(g, Unthrottled(g, t, c.owed), c);
    }
  }

  /** A stalled pass may go on, and undoes nothing. */
  lemma StalledPassUndoesNothing(g: Graph, s: SchedulerState, c: Change, r: SchedulerState)
    requires MayHandle(s) && Iterates(g, s, c, r, true) && s.queue !! s.unopened && Stalled(g, s, c)
    ensures Measure(g, r) <= Measure(g, s) && r.queue !! r.unopened
  {
    var t := s.(active := Cleaned(s.active, s.closed));
    UnthrottledFullStreams(g, t, c);
    ChangesUseUp(g, Unthrottled(g, t, c.owed), c);
    SmallerSet(r.queue + r.unopened, s.queue + s.unopened);
    SmallerSet(FullStreams(g, r), FullStreams(g, s));
  }

  lemma PassUsesUp(g: Graph, s: SchedulerState, changes: nat -> Change, settled: nat, k: nat, r: SchedulerState)
    requires MayHandle(s) && Iterates(g, s, changes(k), r, true) && s.queue !! s.unopened
    requires !Blocked(g, s) && SettledFrom(changes, settled)
    ensures Measure(g, r) + Unsettled(settled, k + 1) < Measure(g, s) + Unsettled(settled, k)
    ensures r.queue !! r.unopened
  {
    hide Iterates, Blocked, Measure;
    if Stalled(g, s, changes(k)) {
      assert changes(k).owed != {};
      StalledPassUndoesNothing(g, s, changes(k), r);
    } else {
      PassMakesProgress(g, s, changes(k), r);
    }
  }

  /** If the callbacks that are owed run eventually, the loop ends within a number of
      passes fixed at its start, unless it reaches the blocked state. With no callback
      owed, that number is the measure. */
  lemma {:induction false} HandlingEndsUnlessBlocked(g: Graph, passes: seq<SchedulerState>, changes: nat -> Change,
          settled: nat, k: nat)
    requires IsRun(g, passes, changes) && k < |passes| && passes[0].queue !! passes[0].unopened
    requires SettledFrom(changes, settled)
    requires forall j :: 0 <= j < |passes| - 1 ==> !Blocked(g, passes[j])
    ensures Measure(g, passes[k]) + Unsettled(settled, k) + k <= Measure(g, passes[0]) + settled
    ensures passes[k].queue !! passes[k].unopened
  {
    hide Iterates, Blocked, Measure, SettledFrom;
    if k > 0 {
      HandlingEndsUnlessBlocked(g, passes, changes, settled, k - 1);
      PassUsesUp(g, passes[k - 1], changes, settled, k - 1, passes[k]);
    }
  }

  lemma StaleStreamsStay(g: Graph, s: SchedulerState)
    requires !g.reportDeadlock
    ensures Unthrottled(g, s, FullStreams(g, s)) == s
  {
    var r := Unthrottled(g, s, FullStreams(g, s));
    forall n: nat, i: nat | n < |s.full| && i in s.full[n] ensures i in g.outputs + FullStreams(g, s) {
      Throttling.MayGrowIsExact(s.full, |s.full|, g.outputs, i);
    }
    assert forall n :: 0 <= n < |s.full| ==> r.full[n] == s.full[n];
    assert r.full == s.full;
  }

  /** The branch of the loop that gives up the lock to break a deadlock: some source is
      active, or a graph input is throttled. */
  predicate Unthrottles(g: Graph, s: SchedulerState) {
    var t := s.(active := Cleaned(s.active, s.closed));
    && !MustQuit(t) && (t.active == [] ==> t.queue == {}) && (t.active != [] || InputThrottled(g, t))
  }

  /** While the callbacks stay owed, a stalled pass changes nothing: the loop may go round
      until the threads that owe them run, whether it is for an active source or for a
      throttled graph input. */
  lemma StallingMayGoOn(g: Graph, s: SchedulerState)
    requires MayHandle(s) && Unthrottles(g, s) && !g.reportDeadlock && FullStreams(g, s) != {}
    ensures var c := Change(s.state, 0, false, false, {}, {}, {}, FullStreams(g, s));
            var r := s.(active := Cleaned(s.active, s.closed));
            Stalled(g, s, c) && Iterates(g, s, c, r, true) && MayHandle(r) && Unthrottles(g, r)
              && FullStreams(g, r) == FullStreams(g, s)
  {
    var r := s.(active := Cleaned(s.active, s.closed));
    var c := Change(s.state, 0, false, false, {}, {}, {}, FullStreams(g, s));
    StaleStreamsStay(g, r);
    assert FullStreams(g, r) == FullStreams(g, s);
    assert forall n :: 0 <= n < |r.full| ==> Changed(r, c).full[n] == r.full[n];
    assert Changed(r, c).full == r.full;
    assert r.unopened - {} == r.unopened && r.queue + r.unopened * {} == r.queue && r.closed + {} == r.closed;
    assert Changed(r, c) == r;
    CleanedTwice(s.active, s.closed);
  }

  /** The streams whose record is stale are exactly what UnthrottleSources fails to
      release, as its contract says; there are none once no callback is owed. */
  lemma UnthrottledAsRecorded(g: Graph, s: SchedulerState, n: Throttling.System, after: Throttling.Bookkeeping)
    requires Throttling.Inv(n) && s.full == n.b.full && !g.reportDeadlock
    requires |after.wasFull| == |n.b.wasFull| && |after.full| == |n.b.full| && Throttling.AllRecorded(after, n.upstream)
    requires forall k, i :: 0 <= k < |after.full| && i in after.full[k] ==> i < |n.upstream|
    requires forall i :: 0 <= i < |n.streams| ==>
      after.wasFull[i] == (n.b.wasFull[i] && !(i in FullStreams(g, s) && n.streams[i].IsFull()))
    ensures var stale := Throttling.Stale(n.b.wasFull, Throttling.Fullness(n.streams));
            && Unthrottled(g, s, stale).full == after.full
            && (forall i :: i in stale ==> n.owed[i] > 0)
            && ((forall i :: 0 <= i < |n.owed| ==> n.owed[i] == 0) ==> stale == {})
  {
    var isFull := Throttling.Fullness(n.streams);
    Throttling.UnthrottlingReleases(n.b, after, isFull, n.upstream, g.outputs);
    forall i | i in Throttling.Stale(n.b.wasFull, isFull) ensures n.owed[i] > 0 {
      Throttling.StaleMeansOwed(n, i);
    }
  }

  /** From the blocked state the loop never ends: it may go on for any number of
      passes, and every pass leads back to the blocked state, whatever happens to what
      the lock does not guard except an error. */
  lemma BlockedForEver(g: Graph, s: SchedulerState, c: Change)
    requires Blocked(g, s)
    ensures Iterates(g, s, c, s.(active := []), true) && Blocked(g, s.(active := []))
    ensures forall r, again :: Iterates(g, s, c, r, again) ==> again && r == s.(active := [])
  {
  }

  /** A run as it starts: all sources are still to be opened, and graph inputs are open. */
  function AtStart(sources: set<nat>, nodes: nat): SchedulerState {
    SchedulerState(Running, 0, false, false, sources, {}, [], {}, seq(nodes, _ => {}))
  }

  /** AddNodeToSourcesQueue. */
  function Opened(s: SchedulerState, n: nat): SchedulerState {
    s.(unopened := s.unopened - {n}, queue := s.queue + {n})
  }

  /** What blocks the loop: the source of a higher layer opens first, while a graph input
      is open that could still open the other. */
  lemma BlockingIsPossible(g: Graph, low: nat, high: nat, nodes: nat)
    requires g.layers(low) < g.layers(high)
    ensures Blocked(g, Opened(AtStart({low, high}, nodes), high))
  {
    var s := Opened(AtStart({low, high}, nodes), high);
    assert s.queue == {high} && s.unopened == {low};
    assert low in s.unopened;
  }

  // ----- Calls that are ignored -----

  /** A call of HandleIdle would quit, activate sources, or break a deadlock. */
  predicate HasWork(g: Graph, s: SchedulerState) {
    var t := s.(active := Cleaned(s.active, s.closed));
    MayHandle(s) && (MustQuit(t) || (t.active == [] && t.queue != {}) || (Unthrottles(g, s) && FullStreams(g, s) != {}))
  }

  /** What others did leaves an error, or no active source and something to quit or to
      activate for. */
  predicate LeavesWork(s: SchedulerState, c: Change) {
    var r := Changed(s, c);
    MayHandle(r) && (r.hasError || (Cleaned(r.active, r.closed) == [] && (r.queue != {} || r.inputsClosed)))
  }

  /** The loop may end with work left, although a call that came in the meantime was
      ignored: exactly if its last pass gave up the lock, found no full stream that may
      grow, and others left work. */
  lemma EndsWithWorkLeft(g: Graph, s: SchedulerState, c: Change, r: SchedulerState)
    requires MayHandle(s) && Iterates(g, s, c, r, false)
    ensures HasWork(g, r) <==>
            Unthrottles(g, s) && FullStreams(g, s) == {} && LeavesWork(s.(active := Cleaned(s.active, s.closed)), c)
  {
    var t := s.(active := Cleaned(s.active, s.closed));
    assert FullStreams(g, t) == FullStreams(g, s) && InputThrottled(g, t) == InputThrottled(g, s);
    CleanedTwice(s.active, s.closed);
    if Unthrottles(g, s) && FullStreams(g, s) == {} {
      NothingBecomesFull(g, t, c);
    }
  }

  lemma {:induction false} CleanedTwice(active: seq<nat>, closed: set<nat>)
    ensures Cleaned(Cleaned(active, closed), closed) == Cleaned(active, closed)
  {
  }

  lemma NothingBecomesFull(g: Graph, s: SchedulerState, c: Change)
    requires FullStreams(g, s) == {}
    ensures FullStreams(g, Changed(s, c)) == {}
  {
    var r := Changed(s, c);
    forall i | i in FullStreams(g, r) ensures i in FullStreams(g, s) {
      Throttling.MayGrowIsExact(r.full, |r.full|, g.outputs, i);
      Throttling.MayGrowIsExact(s.full, |s.full|, g.outputs, i);
    }
  }

  /** Cancel, in such a pass: the call it makes is ignored, the loop ends, and the error
      it recorded has not made the graph quit. */
  lemma CancelMayBeMissed(g: Graph, s: SchedulerState)
    requires MayHandle(s) && Unthrottles(g, s) && FullStreams(g, s) == {}
    ensures var c := Change(Cancelling, 0, true, false, {}, {}, {}, {});
            var r := Changed(s.(active := Cleaned(s.active, s.closed)), c);
            Iterates(g, s, c, r, false) && HasWork(g, r) && r.hasError && r.state == Cancelling
  {
    assert FullStreams(g, s.(active := Cleaned(s.active, s.closed))) == FullStreams(g, s);
  }

  /** There are such passes: a source is held back by a full graph output stream. */
  lemma SourceHeldBackByOutput(g: Graph, source: nat, output: nat)
    requires output in g.outputs
    ensures var s := SchedulerState(Running, 0, false, false, {}, {}, [source], {}, [{output}]);
            MayHandle(s) && Unthrottles(g, s) && FullStreams(g, s) == {}
  {
    var s := SchedulerState(Running, 0, false, false, {}, {}, [source], {}, [{output}]);
    forall i ensures i !in FullStreams(g, s) {
      Throttling.MayGrowIsExact(s.full, |s.full|, g.outputs, i);
    }
  }

  // ----- Over a run -----

  /** A pass of the loop ends the run exactly if an error is recorded, or no source waits,
      all active sources are closed, and so are the graph inputs. */
  lemma TerminatesExactly(g: Graph, s: SchedulerState, c: Change, r: SchedulerState, again: bool)
    requires MayHandle(s) && Iterates(g, s, c, r, again) && !c.state.Terminated?
    ensures r.state.Terminated? <==>
            s.hasError
            || (s.queue == {} && (forall k :: 0 <= k < |s.active| ==> s.active[k] in s.closed) && s.inputsClosed)
    ensures r.state.Terminated? ==> !again
  {
    CleanedIsEmpty(s.active, s.closed);
    if s.queue != {} {
      var n := LowestLayer(g, s.queue);
    }
  }

  /** When the loop goes on: to activate waiting sources once no source is active, or to
      break a deadlock, which takes a full stream that may grow, and a source that is still
      active or a graph input that is held back. */
  lemma GoesOnExactly(g: Graph, s: SchedulerState, c: Change, r: SchedulerState, again: bool)
    requires Iterates(g, s, c, r, again)
    ensures var noneActive := forall k :: 0 <= k < |s.active| ==> s.active[k] in s.closed;
            again <==>
            && !s.hasError && !(s.queue == {} && noneActive && s.inputsClosed)
            && ((noneActive && s.queue != {})
                || ((!noneActive || exists n :: g.calculators <= n < |s.full| && s.full[n] != {})
                    && exists n, i :: 0 <= n < |s.full| && i in s.full[n] && i !in g.outputs))
  {
    var t := s.(active := Cleaned(s.active, s.closed));
    CleanedIsEmpty(s.active, s.closed);
    InputsHeldBack(g, t);
    StreamsThatMayGrow(g, t);
    if s.queue != {} {
      var n := LowestLayer(g, s.queue);
    }
    hide InputThrottled, FullStreams, LowerLayerUnopened, NextLayer, Changed, Unthrottled;
  }

  lemma InputsHeldBack(g: Graph, s: SchedulerState)
    ensures InputThrottled(g, s) <==> exists n :: g.calculators <= n < |s.full| && s.full[n] != {}
  {
    var held := Throttling.HeldBack(s.full, g.calculators, |s.full|);
    Throttling.CountIsExact(s.full, g.calculators, |s.full|);
    if n: nat :| g.calculators <= n < |s.full| && s.full[n] != {} {
      assert n in held;
    }
    assert |held| > 0 <==> held != {};
  }

  lemma StreamsThatMayGrow(g: Graph, s: SchedulerState)
    ensures FullStreams(g, s) != {} <==> exists n, i :: 0 <= n < |s.full| && i in s.full[n] && i !in g.outputs
  {
    if i :| i in FullStreams(g, s) {
      Throttling.MayGrowIsExact(s.full, |s.full|, g.outputs, i);
    }
    if n, i :| 0 <= n < |s.full| && i in s.full[n] && i !in g.outputs {
      Throttling.MayGrowIsExact(s.full, |s.full|, g.outputs, i);
    }
  }

  lemma {:induction false} CleanedIsEmpty(active: seq<nat>, closed: set<nat>)
    ensures Cleaned(active, closed) == [] <==> forall k :: 0 <= k < |active| ==> active[k] in closed
  {
    if active != [] && active[|active| - 1] in closed {
      CleanedIsEmpty(active[..|active| - 1], closed);
    }
  }

  /** A step of a run: a pass of the loop, or what other threads do outside of it. */
  ghost predicate Follows(g: Graph, s: SchedulerState, c: Change, pass: bool, r: SchedulerState) {
    if pass then MayHandle(s) && (Iterates(g, s, c, r, true) || Iterates(g, s, c, r, false)) else r == Changed(s, c)
  }

  ghost predicate IsHistory(g: Graph, states: seq<SchedulerState>, changes: seq<Change>, passes: seq<bool>) {
    && |states| == |changes| + 1 == |passes| + 1
    && forall k :: 0 <= k < |changes| ==>
         !changes[k].state.Terminated? && Follows(g, states[k], changes[k], passes[k], states[k + 1])
  }

  ghost predicate WasActive(states: seq<SchedulerState>, n: nat) {
    exists k :: 0 <= k < |states| && n in states[k].active
  }

  /** Where a source is: not opened, waiting, or activated and either active still or closed. */
  ghost predicate IsAccounted(states: seq<SchedulerState>, n: nat)
    requires states != []
  {
    var s := states[|states| - 1];
    n in s.unopened || n in s.queue || (WasActive(states, n) && (n in s.active || n in s.closed))
  }

  lemma DroppedAreClosed(active: seq<nat>, closed: set<nat>, n: nat)
    requires n in active
    ensures n in Cleaned(active, closed) || n in closed
  {
    var k :| 0 <= k < |active| && active[k] == n;
    assert k < |Cleaned(active, closed)| ==> Cleaned(active, closed)[k] == n;
  }

  /** A pass moves no source anywhere but on. */
  lemma PassMovesOn(g: Graph, s: SchedulerState, c: Change, r: SchedulerState, again: bool, n: nat)
    requires MayHandle(s) && Iterates(g, s, c, r, again)
    ensures n in s.unopened ==> n in r.unopened || n in r.queue
    ensures n in s.queue ==> n in r.queue || n in r.active
    ensures n in s.active || n in s.closed ==> n in r.active || n in r.closed
  {
    if n in s.active {
      DroppedAreClosed(s.active, s.closed, n);
    }
    hide FullStreams, InputThrottled, LowerLayerUnopened, InNextLayer, Unthrottled;
    if again && Cleaned(s.active, s.closed) == [] && s.queue != {} && n in NextLayer(g, s.queue) {
      assert n in s.queue;
    }
  }

  lemma StepKeepsAccount(g: Graph, states: seq<SchedulerState>, c: Change, pass: bool, r: SchedulerState, n: nat)
    requires states != [] && IsAccounted(states, n) && Follows(g, states[|states| - 1], c, pass, r)
    ensures IsAccounted(states + [r], n)
  {
    var s, more := states[|states| - 1], states + [r];
    assert more[|states|] == r;
    if WasActive(states, n) {
      var k :| 0 <= k < |states| && n in states[k].active;
      assert n in more[k].active;
    }
    if pass {
      PassMovesOn(g, s, c, r, if Iterates(g, s, c, r, true) then true else false, n);
      hide Iterates;
      assert n in r.active ==> n in more[|states|].active;
    }
  }

  lemma {:induction false} HistoryKeepsAccount(g: Graph, states: seq<SchedulerState>, changes: seq<Change>,
                                               passes: seq<bool>, n: nat)
    requires IsHistory(g, states, changes, passes) && IsAccounted(states[..1], n)
    ensures IsAccounted(states, n)
    decreases |states|
  {
    hide IsAccounted, Follows;
    var last := |changes| - 1;
    if last < 0 {
      assert states[..1] == states;
    } else {
      var before := states[..last + 1];
      assert before[..1] == states[..1] && states == before + [states[last + 1]];
      HistoryKeepsAccount(g, before, changes[..last], passes[..last], n);
      StepKeepsAccount(g, before, changes[last], passes[last], states[last + 1], n);
    }
  }

  /** Unless there is an error, a run ends only when every source that was opened has been
      active and is closed. */
  lemma NoSourceIsLeftOut(g: Graph, sources: set<nat>, nodes: nat, states: seq<SchedulerState>, changes: seq<Change>,
                          passes: seq<bool>, n: nat)
    requires IsHistory(g, states, changes, passes) && states[0] == AtStart(sources, nodes) && n in sources
    requires var r := states[|states| - 1]; passes != [] && passes[|passes| - 1] && r.state.Terminated? && !r.hasError
    ensures var r := states[|states| - 1];
            n in r.unopened || (WasActive(states, n) && n in r.closed)
  {
    assert IsAccounted(states[..1], n);
    HistoryKeepsAccount(g, states, changes, passes, n);
    var last := |changes| - 1;
    var s, c, r := states[last], changes[last], states[last + 1];
    assert Follows(g, s, c, passes[last], r);
    LastPass(g, s, c, r);
  }

  lemma LastPass(g: Graph, s: SchedulerState, c: Change, r: SchedulerState)
    requires Follows(g, s, c, true, r) && !c.state.Terminated? && r.state.Terminated? && !r.hasError
    ensures r.queue == {} && r.active == []
  {
  }

  /** Layers are activated in order: exactly the waiting sources of a layer become active
      once no source is, and only if no source of a lower layer waits or is still to be
      opened. */
  lemma LowestLayerFirst(g: Graph, s: SchedulerState, c: Change, r: SchedulerState, again: bool, n: nat)
    requires MayHandle(s) && Iterates(g, s, c, r, again) && n !in s.active
    ensures n in r.active <==>
            && !s.hasError && (forall k :: 0 <= k < |s.active| ==> s.active[k] in s.closed)
            && n in s.queue && forall m :: m in s.queue + s.unopened ==> g.layers(n) <= g.layers(m)
  {
    var t := s.(active := Cleaned(s.active, s.closed));
    assert n !in t.active;
    CleanedIsEmpty(s.active, s.closed);
    assert t.active == [] && t.queue != {} && !LowerLayerUnopened(g, t) && !s.hasError ==> Activates(g, t, c, r);
    assert InNextLayer(g, s.queue, n) <==> n in s.queue && forall m :: m in s.queue ==> g.layers(n) <= g.layers(m);
    hide Changed, Cleaned;
  }

  /** When a source of a lower layer is still to be opened, nothing is activated; that is
      an error exactly if no graph input is open. */
  lemma DeadlockIsReported(g: Graph, s: SchedulerState, c: Change, r: SchedulerState, again: bool, m: nat)
    requires Iterates(g, s, c, r, again) && !s.hasError && s.queue != {}
    requires forall k :: 0 <= k < |s.active| ==> s.active[k] in s.closed
    requires m in s.unopened && forall n :: n in s.queue ==> g.layers(m) < g.layers(n)
    ensures again && r == s.(active := [], hasError := s.inputsClosed)
  {
    CleanedIsEmpty(s.active, s.closed);
  }
}
