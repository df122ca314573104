/** Packet generators run by concurrent tasks, each of which scans for generators that
    became runnable. Every interleaving ends with the same side packets. */
module Generators {
  import opened Results

  /** Generators by index: the names of their side packets, which input values have the
      right type, and the function each computes, which may fail. */
  datatype Graph = Graph(
    inputs: seq<seq<nat>>,
    outputs: seq<seq<nat>>,
    accepts: (nat, nat, int) -> bool,
    succeeds: (nat, seq<int>) -> bool,
    output: (nat, seq<int>, nat) -> int)

  predicate WellFormed(g: Graph) {
    |g.inputs| == |g.outputs|
  }

  /** What mutex_ guards: the side packets and the scheduler's own fields. */
  datatype Shared = Shared(packets: map<nat, int>, scheduled: seq<bool>, numTasks: int, errors: nat)

  predicate Runnable(g: Graph, i: nat, packets: map<nat, int>)
    requires i < |g.inputs|
  {
    forall k :: 0 <= k < |g.inputs[i]| ==> g.inputs[i][k] in packets
  }

  function Values(g: Graph, i: nat, packets: map<nat, int>): (values: seq<int>)
    requires i < |g.inputs| && Runnable(g, i, packets)
    ensures |values| == |g.inputs[i]|
  {
    seq(|g.inputs[i]|, k requires 0 <= k < |g.inputs[i]| => packets[g.inputs[i][k]])
  }

  /** Some input that is present has the wrong type. */
  predicate Mistyped(g: Graph, i: nat, packets: map<nat, int>)
    requires i < |g.inputs|
  {
    exists k :: 0 <= k < |g.inputs[i]| && g.inputs[i][k] in packets && !g.accepts(i, k, packets[g.inputs[i][k]])
  }

  /** The scan looks at generator `i`: the new state, and the inputs if it is scheduled. */
  function Scanning(g: Graph, s: Shared, i: nat): (Shared, Option<seq<int>>)
    requires i < |g.inputs| == |s.scheduled|
  {
    if s.scheduled[i] then (s, None)
    else if Mistyped(g, i, s.packets) then (s.(errors := s.errors + 1), None)
    else if !Runnable(g, i, s.packets) then (s, None)
    else (s.(scheduled := s.scheduled[i := true], numTasks := s.numTasks + 1), Some(Values(g, i, s.packets)))
  }

  /** The first `n` outputs of generator `i` put into the side packets; a name that is
      already there keeps its packet and is an error. */
  function Emplaced(g: Graph, s: Shared, i: nat, values: seq<int>, n: nat): Shared
    requires i < |g.outputs| && n <= |g.outputs[i]|
  {
    if n == 0 then s
    else
      var r, name := Emplaced(g, s, i, values, n - 1), g.outputs[i][n - 1];
      if name in r.packets then r.(errors := r.errors + 1)
      else r.(packets := r.packets[name := g.output(i, values, n - 1)])
  }

  function Finishing(g: Graph, s: Shared, i: nat, values: seq<int>): Shared
    requires i < |g.outputs|
  {
    if g.succeeds(i, values) then Emplaced(g, s, i, values, |g.outputs[i]|) else s.(errors := s.errors + 1)
  }

  class GeneratorScheduler {
    const graph: Graph
    var sidePackets: map<nat, int>
    var scheduledGenerators: seq<bool>
    var numTasks: int
    var statuses: nat

    ghost function State(): Shared
      reads this
    {
      Shared(sidePackets, scheduledGenerators, numTasks, statuses)
    }

    /** On the first pass no generator is scheduled; later, all but `nonBase` are. */
    constructor (graph: Graph, sidePackets: map<nat, int>, nonBase: seq<nat>, initial: bool)
      requires forall k :: 0 <= k < |nonBase| ==> nonBase[k] < |graph.inputs|
      ensures this.graph == graph
      ensures State() == Starting(graph, sidePackets, if initial then {} else Others(graph, nonBase))
    {
      this.graph, this.sidePackets := graph, sidePackets;
      numTasks, statuses := 0, 0;
      new;
      var scheduled := seq(|graph.inputs|, _ => !initial);
      if !initial {
        for k := 0 to |nonBase|
          invariant |scheduled| == |graph.inputs|
          invariant forall i :: 0 <= i < |scheduled| ==> (scheduled[i] <==> i !in nonBase[..k])
        {
          scheduled := scheduled[nonBase[k] := false];
        }
        assert nonBase[..|nonBase|] == nonBase;
      }
      scheduledGenerators := scheduled;
    }

    /** One stretch of the scan under the lock: up to the next generator scheduled. */
    method ScanToNext(from: nat) returns (next: nat, task: Option<(nat, seq<int>)>)
      requires WellFormed(graph) && from <= |graph.inputs| == |scheduledGenerators|
      modifies this
      ensures from <= next <= |graph.inputs| && Scans(graph, old(State()), from, next) == State()
      ensures task.None? ==> next == |graph.inputs| && FindsNothing(graph, old(State()), from, next)
      ensures task.Some? ==>
        && from < next && task.value.0 == next - 1 && FindsNothing(graph, old(State()), from, next - 1)
        && Scanning(graph, Scans(graph, old(State()), from, next - 1), next - 1).1 == Some(task.value.1)
    {
      next, task := from, None;
      assert FindsNothing(graph, State(), from, from) && Scans(graph, State(), from, from) == State();
      hide FindsNothing, Scans, Values, Mistyped, Runnable;
      while next < |graph.inputs|
        invariant from <= next <= |graph.inputs| == |scheduledGenerators|
        invariant State() == Scans(graph, old(State()), from, next)
        invariant FindsNothing(graph, old(State()), from, next)
      {
        var i := next;
        next := next + 1;
        ScansNext(graph, old(State()), from, i);
        if scheduledGenerators[i] {
          continue;
        }
        if Mistyped(graph, i, sidePackets) {
          statuses := statuses + 1;
          continue;
        }
        if !Runnable(graph, i, sidePackets) {
          continue;
        }
        scheduledGenerators := scheduledGenerators[i := true];
        numTasks := numTasks + 1;
        task := Some((i, Values(graph, i, sidePackets)));
        return;
      }
    }

    /** Records what generator `i` produced. True if the task goes on to scan. */
    method RecordOutputs(i: nat, values: seq<int>) returns (goOn: bool)
      requires i < |graph.outputs|
      modifies this
      ensures State() == Finishing(graph, old(State()), i, values)
      ensures goOn <==> graph.succeeds(i, values) && State().errors == 0
    {
      if !graph.succeeds(i, values) {
        statuses := statuses + 1;
        return false;
      }
      for n := 0 to |graph.outputs[i]|
        invariant State() == Emplaced(graph, old(State()), i, values, n)
      {
        var name := graph.outputs[i][n];
        if name in sidePackets {
          statuses := statuses + 1;
        } else {
          sidePackets := sidePackets[name := graph.output(i, values, n)];
        }
      }
      goOn := statuses == 0;
    }

    /** What is left for the next pass, unless there were errors. */
    method GetNonScheduledGenerators() returns (left: Option<seq<nat>>)
      ensures left == if statuses > 0 then None else Some(NonScheduled(scheduledGenerators, |scheduledGenerators|))
    {
      if statuses > 0 {
        return None;
      }
      var indices := [];
      for i := 0 to |scheduledGenerators|
        invariant indices == NonScheduled(scheduledGenerators, i)
      {
        if !scheduledGenerators[i] {
          indices := indices + [i];
        }
      }
      return Some(indices);
    }
  }

  /** The generators among the first `n` that are not scheduled, in their order. */
  function NonScheduled(scheduled: seq<bool>, n: nat): seq<nat>
    requires n <= |scheduled|
  {
    if n == 0 then [] else NonScheduled(scheduled, n - 1) + if scheduled[n - 1] then [] else [n - 1]
  }

  function Others(g: Graph, nonBase: seq<nat>): set<nat> {
    set i | 0 <= i < |g.inputs| && i !in nonBase
  }

  function Starting(g: Graph, packets: map<nat, int>, done: set<nat>): Shared {
    Shared(packets, seq(|g.inputs|, i => i in done), 0, 0)
  }

  function Scans(g: Graph, s: Shared, from: nat, to: nat): (r: Shared)
    requires from <= to <= |g.inputs| == |s.scheduled|
    ensures |r.scheduled| == |s.scheduled|
  {
    if from == to then s else Scanning(g, Scans(g, s, from, to - 1), to - 1).0
  }

  lemma ScansNext(g: Graph, s: Shared, from: nat, i: nat)
    requires from <= i < |g.inputs| == |s.scheduled|
    ensures Scans(g, s, from, i + 1) == Scanning(g, Scans(g, s, from, i), i).0
    ensures FindsNothing(g, s, from, i + 1) <==>
            FindsNothing(g, s, from, i) && Scanning(g, Scans(g, s, from, i), i).1 == None
  {
  }

  /** The scan schedules no generator. */
  ghost predicate FindsNothing(g: Graph, s: Shared, from: nat, to: nat)
    requires from <= to <= |g.inputs| == |s.scheduled|
  {
    forall i :: from <= i < to ==> Scanning(g, Scans(g, s, from, i), i).1 == None
  }

  // ----- All tasks -----

  /** Where a task is: queued, running its generator, scanning from an index on, about
      to be counted as finished, or finished. The first worker is the caller, which
      only scans. */
  datatype Phase = Pending(values: seq<int>) | Generating(values: seq<int>) | Scan(next: nat) | Ending | Done

  datatype Worker = Worker(generator: Option<nat>, phase: Phase)

  datatype System = System(s: Shared, workers: seq<Worker>)

  /** What a task does at its start: nothing if there are errors already. */
  function Begun(s: Shared, values: seq<int>): Phase {
    if s.errors > 0 then Ending else Generating(values)
  }

  predicate Possible(g: Graph, n: System, w: nat) {
    && WellFormed(g) && |n.s.scheduled| == |g.inputs|
    && w < |n.workers| && !n.workers[w].phase.Done?
    && match n.workers[w].phase
       case Scan(next) => next <= |g.inputs|
       case _ => n.workers[w].generator.Some? && n.workers[w].generator.value < |g.inputs|
  }

  /** The next step of worker `w`. A stretch of a scan may be interrupted at any index,
      although the source holds the lock until it schedules a task. */
  function Next(g: Graph, n: System, w: nat): System
    requires Possible(g, n, w)
  {
    var k := n.workers[w];
    match k.phase
    case Pending(values) => n.(workers := n.workers[w := k.(phase := Begun(n.s, values))])
    case Generating(values) =>
      var s := Finishing(g, n.s, k.generator.value, values);
      var phase := if g.succeeds(k.generator.value, values) && s.errors == 0 then Scan(0) else Ending;
      System(s, n.workers[w := k.(phase := phase)])
    case Scan(i) =>
      if i == |g.inputs| then n.(workers := n.workers[w := k.(phase := if k.generator.Some? then Ending else Done)])
      else
        var (s, task) := Scanning(g, n.s, i);
        var workers := n.workers[w := k.(phase := Scan(i + 1))];
        System(s, if task.Some? then workers + [Worker(Some(i), Pending(task.value))] else workers)
    case Ending => System(n.s.(numTasks := n.s.numTasks - 1), n.workers[w := k.(phase := Done)])
  }

  function Start(g: Graph, packets: map<nat, int>, done: set<nat>): System {
    System(Starting(g, packets, done), [Worker(None, Scan(0))])
  }

  // ----- What every step keeps -----

  ghost predicate Produced(g: Graph, i: nat, values: seq<int>, packets: map<nat, int>)
    requires i < |g.outputs|
  {
    forall k :: 0 <= k < |g.outputs[i]| ==>
      g.outputs[i][k] in packets && packets[g.outputs[i][k]] == g.output(i, values, k)
  }

  predicate Extends(m: map<nat, int>, larger: map<nat, int>) {
    forall name :: name in m ==> name in larger && larger[name] == m[name]
  }

  /** A worker runs its generator on the inputs it has in the side packets; once it
      has run it, and no error occurred, the outputs are there. */
  ghost predicate WorkerInv(g: Graph, n: System, k: Worker)
    requires |g.inputs| == |g.outputs| == |n.s.scheduled|
  {
    && (k.phase.Scan? ==> k.phase.next <= |g.inputs|)
    && if k.generator.None? then k.phase.Scan? || k.phase.Done?
       else
         var i := k.generator.value;
         && i < |g.inputs| && n.s.scheduled[i] && Runnable(g, i, n.s.packets)
         && match k.phase
            case Pending(values) => values == Values(g, i, n.s.packets)
            case Generating(values) => values == Values(g, i, n.s.packets)
            case _ => n.s.errors == 0 ==> Produced(g, i, Values(g, i, n.s.packets), n.s.packets)
  }

  predicate Outstanding(k: Worker) {
    k.generator.Some? && !k.phase.Done?
  }

  function Count(workers: seq<Worker>): nat {
    if workers == [] then 0 else Count(workers[..|workers| - 1]) + if Outstanding(workers[|workers| - 1]) then 1 else 0
  }

  predicate HasWorker(workers: seq<Worker>, i: nat) {
    exists w :: 0 <= w < |workers| && workers[w].generator == Some(i)
  }

  /** Some scan will still come to generator `i`. */
  predicate WillBeScanned(workers: seq<Worker>, i: nat) {
    exists w :: 0 <= w < |workers| && workers[w].phase.Scan? && workers[w].phase.next <= i
  }

  ghost predicate SchedulingInv(g: Graph, n: System, done: set<nat>)
    requires |g.inputs| == |n.s.scheduled|
  {
    && (forall i :: 0 <= i < |g.inputs| ==> (n.s.scheduled[i] <==> i in done || HasWorker(n.workers, i)))
    && (forall v, w :: 0 <= v < w < |n.workers| && n.workers[v].generator.Some? ==>
          n.workers[v].generator != n.workers[w].generator)
    && (forall w :: 0 <= w < |n.workers| && n.workers[w].generator.Some? ==> n.workers[w].generator.value !in done)
    && (forall i :: 0 <= i < |g.inputs| && !n.s.scheduled[i] && Runnable(g, i, n.s.packets) ==>
          n.s.errors > 0 || WillBeScanned(n.workers, i))
  }

  ghost predicate Inv(g: Graph, n: System, base: map<nat, int>, done: set<nat>) {
    && WellFormed(g) && |n.s.scheduled| == |g.inputs| && n.workers != []
    && (forall w :: 0 <= w < |n.workers| ==> (n.workers[w].generator.None? <==> w == 0))
    && Extends(base, n.s.packets)
    && n.s.numTasks == Count(n.workers)
    && (forall w :: 0 <= w < |n.workers| ==> WorkerInv(g, n, n.workers[w]))
    && SchedulingInv(g, n, done)
  }

  lemma {:induction false} CountUpdate(workers: seq<Worker>, w: nat, k: Worker)
    requires w < |workers|
    ensures Count(workers[w := k]) ==
            Count(workers) - (if Outstanding(workers[w]) then 1 else 0) + (if Outstanding(k) then 1 else 0)
  {
    var last := |workers| - 1;
    if w == last {
      assert workers[w := k][..last] == workers[..last];
    } else {
      CountUpdate(workers[..last], w, k);
      assert workers[w := k][..last] == workers[..last][w := k];
    }
  }

  /** Emplacing only adds packets; without errors it adds all the outputs. */
  lemma {:induction false} EmplacedAdds(g: Graph, s: Shared, i: nat, values: seq<int>, n: nat)
    requires i < |g.outputs| && n <= |g.outputs[i]|
    ensures var r := Emplaced(g, s, i, values, n);
            && Extends(s.packets, r.packets) && r.scheduled == s.scheduled && r.numTasks == s.numTasks
               && s.errors <= r.errors
            && (r.errors == 0 ==> forall k :: 0 <= k < n ==>
                  g.outputs[i][k] in r.packets && r.packets[g.outputs[i][k]] == g.output(i, values, k))
  {
    if n > 0 {
      EmplacedAdds(g, s, i, values, n - 1);
    }
  }

  lemma ExtendedInputs(g: Graph, i: nat, m: map<nat, int>, larger: map<nat, int>)
    requires i < |g.inputs| && Runnable(g, i, m) && Extends(m, larger)
    ensures Runnable(g, i, larger) && Values(g, i, larger) == Values(g, i, m)
  {
  }

  lemma SameGenerators(workers: seq<Worker>, w: nat, k: Worker)
    requires w < |workers| && k.generator == workers[w].generator
    ensures forall i: nat :: HasWorker(workers[w := k], i) <==> HasWorker(workers, i)
  {
    forall i: nat | HasWorker(workers, i) ensures HasWorker(workers[w := k], i) {
      var v :| 0 <= v < |workers| && workers[v].generator == Some(i);
      assert workers[w := k][v].generator == Some(i);
    }
  }

  /** Worker `w` moves on without touching the side packets. */
  predicate Moves(n: System, w: nat, r: System) {
    && w < |n.workers| == |r.workers|
    && r.s.packets == n.s.packets && r.s.scheduled == n.s.scheduled && r.s.errors >= n.s.errors
    && r.workers == n.workers[w := n.workers[w].(phase := r.workers[w].phase)]
  }

  lemma MovedKeepsSchedulingInv(g: Graph, n: System, done: set<nat>, w: nat, r: System)
    requires |g.inputs| == |n.s.scheduled| && SchedulingInv(g, n, done) && Moves(n, w, r)
    requires forall i :: 0 <= i < |g.inputs| && !n.s.scheduled[i] ==>
               Runnable(g, i, n.s.packets) && WillBeScanned(n.workers, i) ==>
               r.s.errors > 0 || WillBeScanned(r.workers, i)
    ensures SchedulingInv(g, r, done)
  {
    SameGenerators(n.workers, w, r.workers[w]);
  }

  lemma MovedKeepsInv(g: Graph, n: System, base: map<nat, int>, done: set<nat>, w: nat, r: System)
    requires Inv(g, n, base, done) && Moves(n, w, r) && WorkerInv(g, r, r.workers[w])
    requires r.s.numTasks - n.s.numTasks ==
               (if Outstanding(r.workers[w]) then 1 else 0) - (if Outstanding(n.workers[w]) then 1 else 0)
    requires forall i :: 0 <= i < |g.inputs| && !n.s.scheduled[i] ==>
               Runnable(g, i, n.s.packets) && WillBeScanned(n.workers, i) ==>
               r.s.errors > 0 || WillBeScanned(r.workers, i)
    ensures Inv(g, r, base, done)
  {
    hide SchedulingInv, WillBeScanned, Runnable, Values, Produced, Mistyped;
    MovedKeepsSchedulingInv(g, n, done, w, r);
    CountUpdate(n.workers, w, r.workers[w]);
    forall v | 0 <= v < |r.workers| ensures WorkerInv(g, r, r.workers[v]) {
      assert v != w ==> r.workers[v] == n.workers[v] && WorkerInv(g, n, n.workers[v]);
    }
  }

  lemma ScanStays(workers: seq<Worker>, w: nat, k: Worker, i: nat)
    requires w < |workers| && WillBeScanned(workers, i)
    requires workers[w].phase.Scan? && workers[w].phase.next <= i ==> k.phase.Scan? && k.phase.next <= i
    ensures WillBeScanned(workers[w := k], i)
  {
    var v :| 0 <= v < |workers| && workers[v].phase.Scan? && workers[v].phase.next <= i;
    assert workers[w := k][v].phase.Scan? && workers[w := k][v].phase.next <= i;
  }

  lemma BeginOrEndKeepsInv(g: Graph, n: System, base: map<nat, int>, done: set<nat>, w: nat)
    requires Inv(g, n, base, done) && Possible(g, n, w)
    requires n.workers[w].phase.Pending? || n.workers[w].phase.Ending? || n.workers[w].phase == Scan(|g.inputs|)
    ensures Inv(g, Next(g, n, w), base, done)
  {
    var r := Next(g, n, w);
    assert WorkerInv(g, n, n.workers[w]);
    forall i | 0 <= i < |g.inputs| && WillBeScanned(n.workers, i) ensures WillBeScanned(r.workers, i) {
      ScanStays(n.workers, w, r.workers[w], i);
    }
    MovedKeepsInv(g, n, base, done, w, r);
  }

  lemma SkipKeepsInv(g: Graph, n: System, base: map<nat, int>, done: set<nat>, w: nat)
    requires Inv(g, n, base, done) && Possible(g, n, w) && n.workers[w].phase.Scan?
             && n.workers[w].phase.next < |g.inputs|
    requires Scanning(g, n.s, n.workers[w].phase.next).1 == None
    ensures Inv(g, Next(g, n, w), base, done)
  {
    var r, at := Next(g, n, w), n.workers[w].phase.next;
    assert WorkerInv(g, n, n.workers[w]);
    forall i | 0 <= i < |g.inputs| && WillBeScanned(n.workers, i) && i != at ensures WillBeScanned(r.workers, i) {
      ScanStays(n.workers, w, r.workers[w], i);
    }
    MovedKeepsInv(g, n, base, done, w, r);
  }

  predicate AtSchedule(g: Graph, n: System, w: nat) {
    && Possible(g, n, w) && n.workers[w].phase.Scan? && n.workers[w].phase.next < |g.inputs|
    && Scanning(g, n.s, n.workers[w].phase.next).1.Some?
  }

  /** A generator that is scheduled gets the one worker it ever has. */
  lemma ScheduleKeepsSchedulingInv(g: Graph, n: System, done: set<nat>, w: nat)
    requires AtSchedule(g, n, w) && SchedulingInv(g, n, done)
    ensures SchedulingInv(g, Next(g, n, w), done)
  {
    hide Mistyped;
    var r, at := Next(g, n, w), n.workers[w].phase.next;
    var moved := n.workers[w := r.workers[w]];
    assert r.workers == moved + [r.workers[|moved|]];
    SameGenerators(n.workers, w, r.workers[w]);
    WorkerAppended(moved, r.workers[|moved|]);
    assert !HasWorker(n.workers, at);
    forall i | 0 <= i < |g.inputs| && !r.s.scheduled[i] && Runnable(g, i, r.s.packets)
      ensures r.s.errors > 0 || WillBeScanned(r.workers, i)
    {
      if WillBeScanned(n.workers, i) {
        ScanStays(n.workers, w, r.workers[w], i);
        var v :| 0 <= v < |moved| && moved[v].phase.Scan? && moved[v].phase.next <= i;
        assert r.workers[v] == moved[v];
      }
    }
  }

  lemma ScheduleKeepsInv(g: Graph, n: System, base: map<nat, int>, done: set<nat>, w: nat)
    requires AtSchedule(g, n, w) && Inv(g, n, base, done)
    ensures Inv(g, Next(g, n, w), base, done)
  {
    hide SchedulingInv, Mistyped, Produced, Extends;
    ScheduleKeepsSchedulingInv(g, n, done, w);
    var r, at := Next(g, n, w), n.workers[w].phase.next;
    var moved := n.workers[w := r.workers[w]];
    assert WorkerInv(g, n, n.workers[w]) && r.workers == moved + [r.workers[|moved|]];
    CountUpdate(n.workers, w, r.workers[w]);
    assert r.workers[..|moved|] == moved;
    assert r.s.packets == n.s.packets && r.s.errors == n.s.errors && r.s.scheduled == n.s.scheduled[at := true];
    assert WorkerInv(g, r, r.workers[w]) && WorkerInv(g, r, r.workers[|moved|]);
    forall v | 0 <= v < |moved| && v != w ensures WorkerInv(g, r, r.workers[v]) {
      assert r.workers[v] == n.workers[v] && WorkerInv(g, n, n.workers[v]);
    }
    hide WorkerInv, Scanning;
  }

  lemma WorkerAppended(workers: seq<Worker>, k: Worker)
    requires k.generator.Some?
    ensures forall i: nat :: HasWorker(workers + [k], i) <==> HasWorker(workers, i) || i == k.generator.value
  {
    forall i: nat | HasWorker(workers, i) ensures HasWorker(workers + [k], i) {
      var v :| 0 <= v < |workers| && workers[v].generator == Some(i);
      assert (workers + [k])[v].generator == Some(i);
    }
    assert (workers + [k])[|workers|] == k;
  }

  /** What other workers hold stays true when packets are added. */
  lemma MorePacketsKeepWorkerInv(g: Graph, n: System, r: System, k: Worker)
    requires |g.inputs| == |g.outputs| == |n.s.scheduled| && WorkerInv(g, n, k)
    requires r.s.scheduled == n.s.scheduled && n.s.errors <= r.s.errors && Extends(n.s.packets, r.s.packets)
    ensures WorkerInv(g, r, k)
  {
    if k.generator.Some? {
      ExtendedInputs(g, k.generator.value, n.s.packets, r.s.packets);
    }
  }

  lemma GenerateKeepsSchedulingInv(g: Graph, n: System, done: set<nat>, w: nat)
    requires Possible(g, n, w) && n.workers[w].phase.Generating? && SchedulingInv(g, n, done)
    ensures |Next(g, n, w).s.scheduled| == |g.inputs|
    ensures SchedulingInv(g, Next(g, n, w), done)
  {
    var r, k := Next(g, n, w), n.workers[w];
    EmplacedAdds(g, n.s, k.generator.value, k.phase.values, |g.outputs[k.generator.value]|);
    hide Emplaced;
    SameGenerators(n.workers, w, r.workers[w]);
    assert r.s.errors == 0 ==> r.workers[w].phase == Scan(0);
  }

  lemma GenerateKeepsInv(g: Graph, n: System, base: map<nat, int>, done: set<nat>, w: nat)
    requires Inv(g, n, base, done) && Possible(g, n, w) && n.workers[w].phase.Generating?
    ensures Inv(g, Next(g, n, w), base, done)
  {
    hide SchedulingInv;
    GenerateKeepsSchedulingInv(g, n, done, w);
    var r, k := Next(g, n, w), n.workers[w];
    var i, values := k.generator.value, k.phase.values;
    assert WorkerInv(g, n, k);
    EmplacedAdds(g, n.s, i, values, |g.outputs[i]|);
    hide Emplaced;
    CountUpdate(n.workers, w, r.workers[w]);
    ExtendedInputs(g, i, n.s.packets, r.s.packets);
    forall v | 0 <= v < |r.workers| ensures WorkerInv(g, r, r.workers[v]) {
      if v != w {
        assert WorkerInv(g, n, n.workers[v]);
        MorePacketsKeepWorkerInv(g, n, r, n.workers[v]);
      }
    }
  }

  lemma NextKeepsInv(g: Graph, n: System, base: map<nat, int>, done: set<nat>, w: nat)
    requires Inv(g, n, base, done) && Possible(g, n, w)
    ensures Inv(g, Next(g, n, w), base, done)
  {
    match n.workers[w].phase
    case Generating(_) => GenerateKeepsInv(g, n, base, done, w);
    case Scan(i) =>
      if i == |g.inputs| {
        BeginOrEndKeepsInv(g, n, base, done, w);
      } else if Scanning(g, n.s, i).1.Some? {
        ScheduleKeepsInv(g, n, base, done, w);
      } else {
        SkipKeepsInv(g, n, base, done, w);
      }
    case _ => BeginOrEndKeepsInv(g, n, base, done, w);
  }

  ghost predicate Execution(g: Graph, n: System, steps: seq<nat>)
    decreases |steps|
  {
    steps == [] || (Possible(g, n, steps[0]) && Execution(g, Next(g, n, steps[0]), steps[1..]))
  }

  ghost function End(g: Graph, n: System, steps: seq<nat>): System
    requires Execution(g, n, steps)
    decreases |steps|
  {
    if steps == [] then n else End(g, Next(g, n, steps[0]), steps[1..])
  }

  lemma StartSatisfiesInv(g: Graph, base: map<nat, int>, done: set<nat>)
    requires WellFormed(g)
    ensures Inv(g, Start(g, base, done), base, done)
  {
  }

  lemma {:induction false} ExecutionKeepsInv(g: Graph, n: System, steps: seq<nat>, base: map<nat, int>, done: set<nat>)
    requires Inv(g, n, base, done) && Execution(g, n, steps)
    ensures Inv(g, End(g, n, steps), base, done)
    decreases |steps|
  {
    hide Inv;
    if steps != [] {
      NextKeepsInv(g, n, base, done, steps[0]);
      ExecutionKeepsInv(g, Next(g, n, steps[0]), steps[1..], base, done);
    }
  }

  // ----- The least closed set of side packets -----

  /** Every generator whose inputs are there has its outputs there. */
  ghost predicate Closed(g: Graph, m: map<nat, int>)
    requires WellFormed(g)
  {
    forall i :: 0 <= i < |g.inputs| && Runnable(g, i, m) ==> Produced(g, i, Values(g, i, m), m)
  }

  ghost predicate IsLeastClosed(g: Graph, base: map<nat, int>, m: map<nat, int>)
    requires WellFormed(g)
  {
    && Extends(base, m) && Closed(g, m)
    && forall larger :: Extends(base, larger) && Closed(g, larger) ==> Extends(m, larger)
  }

  lemma {:induction false} EmplacedWithin(g: Graph, s: Shared, i: nat, values: seq<int>, n: nat, m: map<nat, int>)
    requires i < |g.outputs| && n <= |g.outputs[i]| && Extends(s.packets, m) && Produced(g, i, values, m)
    ensures Extends(Emplaced(g, s, i, values, n).packets, m)
  {
    if n > 0 {
      EmplacedWithin(g, s, i, values, n - 1, m);
    }
  }

  lemma {:induction false} ExecutionStaysWithin(g: Graph, n: System, steps: seq<nat>, base: map<nat, int>,
          done: set<nat>, m: map<nat, int>)
    requires Inv(g, n, base, done) && Execution(g, n, steps)
    requires Extends(n.s.packets, m) && Closed(g, m)
    ensures Extends(End(g, n, steps).s.packets, m)
    decreases |steps|
  {
    hide SchedulingInv;
    if steps != [] {
      var k := n.workers[steps[0]];
      if k.phase.Generating? {
        assert WorkerInv(g, n, k);
        ExtendedInputs(g, k.generator.value, n.s.packets, m);
        EmplacedWithin(g, n.s, k.generator.value, k.phase.values, |g.outputs[k.generator.value]|, m);
      }
      NextKeepsInv(g, n, base, done, steps[0]);
      ExecutionStaysWithin(g, Next(g, n, steps[0]), steps[1..], base, done, m);
    }
  }

  lemma {:induction false} OutstandingIsCounted(workers: seq<Worker>, w: nat)
    requires w < |workers| && Outstanding(workers[w])
    ensures Count(workers) > 0
  {
    if w < |workers| - 1 {
      OutstandingIsCounted(workers[..|workers| - 1], w);
    }
  }

  /** What WaitUntilIdle waits for: the caller has scanned, and no task is counted. */
  predicate Idle(n: System) {
    n.workers != [] && n.workers[0].phase.Done? && n.s.numTasks == 0
  }

  /** The count is 0 only when no task is outstanding. */
  lemma IdleMeansDone(g: Graph, n: System, base: map<nat, int>, done: set<nat>, w: nat)
    requires Inv(g, n, base, done) && Idle(n) && w < |n.workers|
    ensures n.workers[w].phase.Done?
  {
    assert WorkerInv(g, n, n.workers[w]);
    if Outstanding(n.workers[w]) {
      OutstandingIsCounted(n.workers, w);
    }
  }

  /** At the end the generators that have not run are those that lack an input, and
      those that have run left their outputs. */
  lemma EndOfRun(g: Graph, n: System, base: map<nat, int>, done: set<nat>, i: nat)
    requires Inv(g, n, base, done) && Idle(n) && n.s.errors == 0 && i < |g.inputs| && i !in done
    ensures n.s.scheduled[i] <==> Runnable(g, i, n.s.packets)
    ensures Runnable(g, i, n.s.packets) ==> Produced(g, i, Values(g, i, n.s.packets), n.s.packets)
  {
    forall w | 0 <= w < |n.workers| ensures n.workers[w].phase.Done? && WorkerInv(g, n, n.workers[w]) {
      IdleMeansDone(g, n, base, done, w);
    }
    if n.s.scheduled[i] {
      var w :| 0 <= w < |n.workers| && n.workers[w].generator == Some(i);
    }
  }

  /** A run that ends without errors leaves the least set of side packets that is
      closed under the generators. */
  lemma RunEndsAtLeast(g: Graph, base: map<nat, int>, steps: seq<nat>)
    requires WellFormed(g) && Execution(g, Start(g, base, {}), steps)
    requires var n := End(g, Start(g, base, {}), steps); Idle(n) && n.s.errors == 0
    ensures var n := End(g, Start(g, base, {}), steps);
            && IsLeastClosed(g, base, n.s.packets) && |n.s.scheduled| == |g.inputs|
            && forall i :: 0 <= i < |g.inputs| ==> (n.s.scheduled[i] <==> Runnable(g, i, n.s.packets))
  {
    var start := Start(g, base, {});
    StartSatisfiesInv(g, base, {});
    ExecutionKeepsInv(g, start, steps, base, {});
    var n := End(g, start, steps);
    forall i | 0 <= i < |g.inputs|
      ensures n.s.scheduled[i] <==> Runnable(g, i, n.s.packets)
      ensures Runnable(g, i, n.s.packets) ==> Produced(g, i, Values(g, i, n.s.packets), n.s.packets)
    {
      EndOfRun(g, n, base, {}, i);
    }
    forall m | Extends(base, m) && Closed(g, m) ensures Extends(n.s.packets, m) {
      ExecutionStaysWithin(g, start, steps, base, {}, m);
    }
  }

  lemma LeastIsUnique(g: Graph, base: map<nat, int>, m: map<nat, int>, n: map<nat, int>)
    requires WellFormed(g) && IsLeastClosed(g, base, m) && IsLeastClosed(g, base, n)
    ensures m == n
  {
  }

  // ----- The verdict of a run -----

  ghost predicate FreshOutputs(g: Graph, i: nat, base: map<nat, int>)
    requires i < |g.outputs|
  {
    NewNames(g.outputs[i], base)
  }

  /** The names are different, and none of them has a packet. */
  ghost predicate NewNames(names: seq<nat>, packets: map<nat, int>) {
    && (forall k :: 0 <= k < |names| ==> names[k] !in packets)
    && (forall k, l :: 0 <= k < l < |names| ==> names[k] != names[l])
  }

  predicate DisjointOutputs(g: Graph, i: nat, j: nat)
    requires i < |g.outputs| && j < |g.outputs|
  {
    forall name :: name in g.outputs[i] ==> name !in g.outputs[j]
  }

  /** The generator has all its inputs in `m`, and did not run before. */
  predicate Runs(g: Graph, done: set<nat>, i: nat, m: map<nat, int>)
    requires i < |g.inputs|
  {
    i !in done && Runnable(g, i, m)
  }

  /** No generator gets a packet of the wrong type in `m`; those that run succeed; and
      no name is given twice. */
  ghost predicate Clean(g: Graph, base: map<nat, int>, done: set<nat>, m: map<nat, int>)
    requires WellFormed(g)
  {
    && (forall i :: 0 <= i < |g.inputs| ==> !Mistyped(g, i, m))
    && (forall i :: 0 <= i < |g.inputs| && Runs(g, done, i, m) ==>
          g.succeeds(i, Values(g, i, m)) && FreshOutputs(g, i, base))
    && (forall i, j :: 0 <= i < j < |g.inputs| && Runs(g, done, i, m) && Runs(g, done, j, m) ==>
          DisjointOutputs(g, i, j))
  }

  /** The generators of an earlier pass have left their outputs. */
  ghost predicate Settled(g: Graph, packets: map<nat, int>, done: set<nat>)
    requires WellFormed(g)
  {
    forall i :: 0 <= i < |g.inputs| && i in done ==>
      Runnable(g, i, packets) && !Mistyped(g, i, packets) && Produced(g, i, Values(g, i, packets), packets)
  }

  /** The task has run its generator. */
  predicate HasRun(workers: seq<Worker>, i: nat) {
    exists w :: 0 <= w < |workers| && workers[w].generator == Some(i) && !workers[w].phase.Pending?
      && !workers[w].phase.Generating?
  }

  ghost predicate OutputsInv(g: Graph, n: System, base: map<nat, int>)
    requires WellFormed(g)
  {
    && (forall i :: 0 <= i < |g.inputs| && HasRun(n.workers, i) ==>
          Runnable(g, i, n.s.packets) && g.succeeds(i, Values(g, i, n.s.packets)) && FreshOutputs(g, i, base))
    && (forall i, j :: 0 <= i < j < |g.inputs| && HasRun(n.workers, i) && HasRun(n.workers, j) ==>
        DisjointOutputs(g, i, j))
  }

  ghost predicate TypesInv(g: Graph, n: System)
    requires |g.inputs| == |n.s.scheduled|
  {
    forall i :: 0 <= i < |g.inputs| && Mistyped(g, i, n.s.packets) ==> !n.s.scheduled[i] && WillBeScanned(n.workers, i)
  }

  /** Every side packet was given at the start or by a generator that has run. */
  ghost predicate NamesInv(g: Graph, n: System, base: map<nat, int>) {
    forall name :: name in n.s.packets && name !in base ==> Given(g, n.workers, name)
  }

  ghost predicate Given(g: Graph, workers: seq<Worker>, name: nat) {
    exists i :: 0 <= i < |g.outputs| && HasRun(workers, i) && name in g.outputs[i]
  }

  /** The generators that have run after a step: one more if the worker ran its own. */
  lemma HasRunAfter(g: Graph, n: System, w: nat, i: nat)
    requires Possible(g, n, w) && Next(g, n, w).s.errors == 0
    ensures HasRun(Next(g, n, w).workers, i) <==>
            HasRun(n.workers, i) || (n.workers[w].phase.Generating? && n.workers[w].generator == Some(i))
  {
    var r := Next(g, n, w);
    if HasRun(n.workers, i) {
      var v :| 0 <= v < |n.workers| && n.workers[v].generator == Some(i) && !n.workers[v].phase.Pending?
          && !n.workers[v].phase.Generating?;
      assert r.workers[v].generator == Some(i) && !r.workers[v].phase.Pending? && !r.workers[v].phase.Generating?;
    }
    if n.workers[w].phase.Generating? && n.workers[w].generator == Some(i) {
      assert r.workers[w].generator == Some(i) && !r.workers[w].phase.Pending? && !r.workers[w].phase.Generating?;
    }
    if HasRun(r.workers, i) {
      var v :| 0 <= v < |r.workers| && r.workers[v].generator == Some(i) && !r.workers[v].phase.Pending?
          && !r.workers[v].phase.Generating?;
      assert v < |n.workers| && n.workers[v].generator == Some(i);
    }
  }

  lemma NewNamesGrow(names: seq<nat>, name: nat, packets: map<nat, int>)
    ensures NewNames(names + [name], packets) <==> NewNames(names, packets) && name !in packets && name !in names
  {
    var more := names + [name];
    assert more[|names|] == name && forall k :: 0 <= k < |names| ==> more[k] == names[k];
    if NewNames(more, packets) {
      assert forall k :: 0 <= k < |names| ==> more[k] != more[|names|];
    }
  }

  /** Emplacing adds the names, without an error exactly if they are new. */
  lemma {:induction false} EmplacedNames(g: Graph, s: Shared, i: nat, values: seq<int>, n: nat)
    requires i < |g.outputs| && n <= |g.outputs[i]|
    ensures var r := Emplaced(g, s, i, values, n);
            && (forall name :: name in r.packets <==> name in s.packets || name in g.outputs[i][..n])
            && (r.errors == s.errors <==> NewNames(g.outputs[i][..n], s.packets)) && s.errors <= r.errors
  {
    if n > 0 {
      EmplacedNames(g, s, i, values, n - 1);
      var names, name := g.outputs[i][..n - 1], g.outputs[i][n - 1];
      assert g.outputs[i][..n] == names + [name];
      NewNamesGrow(names, name, s.packets);
      hide NewNames;
    }
  }

  /** What a worker that has run its generator knows. */
  lemma RunWorker(g: Graph, n: System, base: map<nat, int>, done: set<nat>, i: nat)
    requires Inv(g, n, base, done) && n.s.errors == 0 && i < |g.inputs| && HasRun(n.workers, i)
    ensures Runnable(g, i, n.s.packets) && Produced(g, i, Values(g, i, n.s.packets), n.s.packets)
  {
    var w :| 0 <= w < |n.workers| && n.workers[w].generator == Some(i) && !n.workers[w].phase.Pending?
        && !n.workers[w].phase.Generating?;
    assert WorkerInv(g, n, n.workers[w]);
  }

  lemma ScheduledIsRunnable(g: Graph, n: System, base: map<nat, int>, done: set<nat>, i: nat)
    requires Inv(g, n, base, done) && Settled(g, base, done) && i < |g.inputs| && n.s.scheduled[i]
    ensures Runnable(g, i, n.s.packets)
  {
    if i in done {
      ExtendedInputs(g, i, base, n.s.packets);
      return;
    }
    var w :| 0 <= w < |n.workers| && n.workers[w].generator == Some(i);
    assert WorkerInv(g, n, n.workers[w]);
  }

  /** A task is the only one for its generator, so nobody else has run it. */
  lemma NotYetRun(g: Graph, n: System, base: map<nat, int>, done: set<nat>, w: nat)
    requires Inv(g, n, base, done) && Possible(g, n, w) && n.workers[w].phase.Generating?
    ensures !HasRun(n.workers, n.workers[w].generator.value) && n.workers[w].generator.value !in done
  {
  }

  lemma HasRunIsNotDone(g: Graph, n: System, base: map<nat, int>, done: set<nat>, i: nat)
    requires Inv(g, n, base, done) && HasRun(n.workers, i)
    ensures i !in done
  {
  }

  lemma TypedStays(g: Graph, i: nat, m: map<nat, int>, larger: map<nat, int>)
    requires i < |g.inputs| && Runnable(g, i, m) && !Mistyped(g, i, m) && Extends(m, larger)
    ensures !Mistyped(g, i, larger)
  {
  }

  lemma StepKeepsTypesInv(g: Graph, n: System, base: map<nat, int>, done: set<nat>, w: nat)
    requires Inv(g, n, base, done) && Settled(g, base, done) && Possible(g, n, w) && TypesInv(g, n)
    requires Next(g, n, w).s.errors == 0
    ensures |g.inputs| == |Next(g, n, w).s.scheduled| && TypesInv(g, Next(g, n, w))
  {
    NextKeepsInv(g, n, base, done, w);
    if n.workers[w].phase.Generating? {
      GenerateKeepsTypesInv(g, n, base, done, w);
    } else {
      hide Inv, Settled, Mistyped, WillBeScanned;
      var r := Next(g, n, w);
      forall i | 0 <= i < |g.inputs| && Mistyped(g, i, r.s.packets)
        ensures !r.s.scheduled[i] && WillBeScanned(r.workers, i)
      {
        WaitsForScan(g, n, w, i);
      }
    }
  }

  lemma GenerateKeepsTypesInv(g: Graph, n: System, base: map<nat, int>, done: set<nat>, w: nat)
    requires Inv(g, n, base, done) && Settled(g, base, done) && Possible(g, n, w) && TypesInv(g, n)
    requires Next(g, n, w).s.errors == 0 && n.workers[w].phase.Generating?
    ensures |g.inputs| == |Next(g, n, w).s.scheduled| && TypesInv(g, Next(g, n, w))
  {
    var r, k := Next(g, n, w), n.workers[w];
    EmplacedAdds(g, n.s, k.generator.value, k.phase.values, |g.outputs[k.generator.value]|);
    assert r.workers[w].phase == Scan(0) && r.s.scheduled == n.s.scheduled;
    hide Mistyped, Runnable, Emplaced, Settled;
    forall i | 0 <= i < |g.inputs| && n.s.scheduled[i] ensures !Mistyped(g, i, r.s.packets) {
      ScheduledIsRunnable(g, n, base, done, i);
      TypedStays(g, i, n.s.packets, r.s.packets);
    }
  }

  lemma WaitsForScan(g: Graph, n: System, w: nat, i: nat)
    requires Possible(g, n, w) && !n.workers[w].phase.Generating? && Next(g, n, w).s.errors == 0
    requires i < |g.inputs| && Mistyped(g, i, n.s.packets) && !n.s.scheduled[i] && WillBeScanned(n.workers, i)
    ensures !Next(g, n, w).s.scheduled[i] && WillBeScanned(Next(g, n, w).workers, i)
  {
    var r := Next(g, n, w);
    hide Mistyped, Runnable;
    ScanStays(n.workers, w, r.workers[w], i);
    var moved := n.workers[w := r.workers[w]];
    var v :| 0 <= v < |moved| && moved[v].phase.Scan? && moved[v].phase.next <= i;
    assert r.workers[v] == moved[v];
  }

  lemma GenerateKeepsOutputsInv(g: Graph, n: System, base: map<nat, int>, done: set<nat>, w: nat)
    requires Inv(g, n, base, done) && Possible(g, n, w) && n.workers[w].phase.Generating? && OutputsInv(g, n, base)
    requires Next(g, n, w).s.errors == 0
    ensures OutputsInv(g, Next(g, n, w), base)
  {
    hide Emplaced, SchedulingInv;
    var r, k := Next(g, n, w), n.workers[w];
    var i, values := k.generator.value, k.phase.values;
    assert WorkerInv(g, n, k);
    EmplacedAdds(g, n.s, i, values, |g.outputs[i]|);
    EmplacedNames(g, n.s, i, values, |g.outputs[i]|);
    assert g.outputs[i][..|g.outputs[i]|] == g.outputs[i];
    hide WorkerInv;
    ExtendedInputs(g, i, n.s.packets, r.s.packets);
    hide HasRun, Runnable, Values;
    forall j | 0 <= j < |g.inputs|
      ensures HasRun(r.workers, j) <==> HasRun(n.workers, j) || j == i
      ensures HasRun(n.workers, j) ==>
                && Runnable(g, j, r.s.packets) && g.succeeds(j, Values(g, j, r.s.packets))
                && DisjointOutputs(g, i, j) && DisjointOutputs(g, j, i)
    {
      HasRunAfter(g, n, w, j);
      if HasRun(n.workers, j) {
        RunWorker(g, n, base, done, j);
        ExtendedInputs(g, j, n.s.packets, r.s.packets);
      }
    }
    assert FreshOutputs(g, i, base);
    hide DisjointOutputs, FreshOutputs, Inv;
  }

  lemma NextKeepsNames(g: Graph, n: System, base: map<nat, int>, w: nat)
    requires Possible(g, n, w) && NamesInv(g, n, base) && Next(g, n, w).s.errors == 0
    ensures NamesInv(g, Next(g, n, w), base)
  {
    var r, k := Next(g, n, w), n.workers[w];
    forall i: nat ensures HasRun(n.workers, i) ==> HasRun(r.workers, i) {
      HasRunAfter(g, n, w, i);
    }
    if k.phase.Generating? {
      var i := k.generator.value;
      EmplacedNames(g, n.s, i, k.phase.values, |g.outputs[i]|);
      assert g.outputs[i][..|g.outputs[i]|] == g.outputs[i];
      HasRunAfter(g, n, w, i);
    }
    hide HasRun, Emplaced;
    forall name | name in r.s.packets && name !in base ensures Given(g, r.workers, name) {
      if name in n.s.packets {
        var i :| 0 <= i < |g.outputs| && HasRun(n.workers, i) && name in g.outputs[i];
        assert HasRun(r.workers, i);
      }
    }
  }

  lemma NextKeepsOutputsInv(g: Graph, n: System, base: map<nat, int>, done: set<nat>, w: nat)
    requires Inv(g, n, base, done) && Possible(g, n, w) && OutputsInv(g, n, base) && Next(g, n, w).s.errors == 0
    ensures OutputsInv(g, Next(g, n, w), base)
  {
    var r := Next(g, n, w);
    if n.workers[w].phase.Generating? {
      GenerateKeepsOutputsInv(g, n, base, done, w);
    } else {
      forall i: nat ensures HasRun(r.workers, i) <==> HasRun(n.workers, i) {
        HasRunAfter(g, n, w, i);
      }
      assert r.s.packets == n.s.packets;
      hide HasRun, DisjointOutputs, FreshOutputs, Runnable, Values, Inv, Next;
    }
  }

  /** Errors are never taken back. */
  lemma ErrorsStay(g: Graph, n: System, w: nat)
    requires Possible(g, n, w)
    ensures n.s.errors <= Next(g, n, w).s.errors
  {
    var k := n.workers[w];
    if k.phase.Generating? {
      EmplacedAdds(g, n.s, k.generator.value, k.phase.values, |g.outputs[k.generator.value]|);
    }
  }

  /** Once there is an error no generator starts any more: those that run then had
      started before it. */
  lemma {:induction false} ErrorsStopGenerators(g: Graph, n: System, steps: seq<nat>, w: nat)
    requires Execution(g, n, steps) && n.s.errors > 0
    ensures var r := End(g, n, steps);
            && r.s.errors > 0 && |n.workers| <= |r.workers|
            && (w < |r.workers| && r.workers[w].phase.Generating? ==>
                  w < |n.workers| && r.workers[w] == n.workers[w])
    decreases |steps|
  {
    if steps != [] {
      var m := Next(g, n, steps[0]);
      ErrorsStay(g, n, steps[0]);
      assert |n.workers| <= |m.workers|;
      assert w < |m.workers| && m.workers[w].phase.Generating? ==> w < |n.workers| && m.workers[w] == n.workers[w];
      hide Next, Possible;
      ErrorsStopGenerators(g, m, steps[1..], w);
    }
  }

  lemma {:induction false} ErrorFreeRun(g: Graph, n: System, base: map<nat, int>, done: set<nat>, steps: seq<nat>)
    requires Inv(g, n, base, done) && Settled(g, base, done) && Execution(g, n, steps) && End(g, n, steps).s.errors == 0
    requires n.s.errors == 0 ==> TypesInv(g, n) && OutputsInv(g, n, base)
    ensures var r := End(g, n, steps);
            n.s.errors == 0 && Inv(g, r, base, done) && TypesInv(g, r) && OutputsInv(g, r, base)
    decreases |steps|
  {
    hide Inv, TypesInv, OutputsInv, Settled;
    if steps != [] {
      var w := steps[0];
      NextKeepsInv(g, n, base, done, w);
      ErrorsStay(g, n, w);
      if Next(g, n, w).s.errors == 0 {
        StepKeepsTypesInv(g, n, base, done, w);
        NextKeepsOutputsInv(g, n, base, done, w);
      }
      ErrorFreeRun(g, Next(g, n, w), base, done, steps[1..]);
    }
  }

  /** An error-free run leaves side packets that are closed and clean. */
  lemma ErrorFreeIsClean(g: Graph, base: map<nat, int>, done: set<nat>, steps: seq<nat>)
    requires WellFormed(g) && Settled(g, base, done) && Execution(g, Start(g, base, done), steps)
    requires var n := End(g, Start(g, base, done), steps); Idle(n) && n.s.errors == 0
    ensures var m := End(g, Start(g, base, done), steps).s.packets;
            Extends(base, m) && Closed(g, m) && Clean(g, base, done, m)
  {
    var start := Start(g, base, done);
    StartSatisfiesInv(g, base, done);
    assert TypesInv(g, start) && OutputsInv(g, start, base);
    ErrorFreeRun(g, start, base, done, steps);
    assert Extends(base, End(g, start, steps).s.packets);
    hide Clean, Closed, Inv, Settled;
    EndIsClean(g, End(g, start, steps), base, done);
    EndIsClosed(g, End(g, start, steps), base, done);
  }

  lemma EndIsClosed(g: Graph, n: System, base: map<nat, int>, done: set<nat>)
    requires Inv(g, n, base, done) && Settled(g, base, done) && Idle(n) && n.s.errors == 0
    ensures Closed(g, n.s.packets)
  {
    forall i | 0 <= i < |g.inputs| && Runnable(g, i, n.s.packets)
      ensures Produced(g, i, Values(g, i, n.s.packets), n.s.packets)
    {
      if i in done {
        ExtendedInputs(g, i, base, n.s.packets);
      } else {
        EndOfRun(g, n, base, done, i);
      }
    }
  }

  lemma EndIsClean(g: Graph, n: System, base: map<nat, int>, done: set<nat>)
    requires Inv(g, n, base, done) && Idle(n) && n.s.errors == 0 && TypesInv(g, n) && OutputsInv(g, n, base)
    ensures Clean(g, base, done, n.s.packets)
  {
    forall i | 0 <= i < |g.inputs|
      ensures Runs(g, done, i, n.s.packets) ==> HasRun(n.workers, i)
      ensures !Mistyped(g, i, n.s.packets)
    {
      forall w | 0 <= w < |n.workers| ensures n.workers[w].phase.Done? {
        IdleMeansDone(g, n, base, done, w);
      }
      if i !in done {
        EndOfRun(g, n, base, done, i);
      }
    }
    hide HasRun, Runs, Runnable, Values, DisjointOutputs, FreshOutputs, Mistyped, Inv, TypesInv;
  }

  /** A generator that has run shares no output with one that is still to run. */
  lemma RunnersAreDisjoint(g: Graph, n: System, base: map<nat, int>, given: map<nat, int>, done: set<nat>,
                           m: map<nat, int>, i: nat, j: nat)
    requires Inv(g, n, base, done) && n.s.errors == 0 && Extends(n.s.packets, m) && Clean(g, given, done, m)
    requires i < |g.inputs| && Runs(g, done, i, m) && !HasRun(n.workers, i) && j < |g.inputs| && HasRun(n.workers, j)
    ensures DisjointOutputs(g, i, j)
  {
    RunWorker(g, n, base, done, j);
    HasRunIsNotDone(g, n, base, done, j);
    ExtendedInputs(g, j, n.s.packets, m);
    assert DisjointOutputs(g, i, j) <==> DisjointOutputs(g, j, i);
  }

  /** The names that a task is about to give are new. */
  lemma GivesNewNames(g: Graph, n: System, base: map<nat, int>, done: set<nat>, w: nat, m: map<nat, int>)
    requires Inv(g, n, base, done) && Possible(g, n, w) && n.workers[w].phase.Generating? && n.s.errors == 0
    requires NamesInv(g, n, base) && Extends(n.s.packets, m) && Clean(g, base, done, m)
    ensures var i := n.workers[w].generator.value;
            Runnable(g, i, m) && g.succeeds(i, n.workers[w].phase.values) && FreshOutputs(g, i, base)
            && NewNames(g.outputs[i], n.s.packets)
  {
    var i := n.workers[w].generator.value;
    assert WorkerInv(g, n, n.workers[w]);
    NotYetRun(g, n, base, done, w);
    ExtendedInputs(g, i, n.s.packets, m);
    assert Runs(g, done, i, m) && FreshOutputs(g, i, base);
    hide Inv, Clean, WorkerInv, Extends, HasRun, Runnable, Values, Runs;
    forall j | 0 <= j < |g.outputs| && HasRun(n.workers, j) ensures DisjointOutputs(g, i, j) {
      RunnersAreDisjoint(g, n, base, base, done, m, i, j);
    }
    forall name | name in g.outputs[i] ensures name !in n.s.packets {
      assert !Given(g, n.workers, name) && name !in base;
    }
  }

  lemma MistypedStays(g: Graph, i: nat, m: map<nat, int>, larger: map<nat, int>)
    requires i < |g.inputs| && Extends(m, larger)
    ensures Mistyped(g, i, m) ==> Mistyped(g, i, larger)
  {
  }

  lemma CleanStep(g: Graph, n: System, base: map<nat, int>, done: set<nat>, w: nat, m: map<nat, int>)
    requires Inv(g, n, base, done) && Possible(g, n, w) && n.s.errors == 0
    requires NamesInv(g, n, base) && Extends(n.s.packets, m) && Closed(g, m) && Clean(g, base, done, m)
    ensures Next(g, n, w).s.errors == 0 && NamesInv(g, Next(g, n, w), base) && Extends(Next(g, n, w).s.packets, m)
  {
    var k := n.workers[w];
    if k.phase.Generating? {
      var i := k.generator.value;
      GivesNewNames(g, n, base, done, w, m);
      assert WorkerInv(g, n, k);
      hide HasRun, NamesInv, SchedulingInv, Clean;
      ExtendedInputs(g, i, n.s.packets, m);
      EmplacedNames(g, n.s, i, k.phase.values, |g.outputs[i]|);
      assert g.outputs[i][..|g.outputs[i]|] == g.outputs[i];
      EmplacedWithin(g, n.s, i, k.phase.values, |g.outputs[i]|, m);
    } else if k.phase.Scan? && k.phase.next < |g.inputs| {
      MistypedStays(g, k.phase.next, n.s.packets, m);
    }
    NextKeepsNames(g, n, base, w);
  }

  lemma {:induction false} CleanRun(g: Graph, n: System, base: map<nat, int>, done: set<nat>, steps: seq<nat>,
                                    m: map<nat, int>)
    requires Inv(g, n, base, done) && Execution(g, n, steps) && n.s.errors == 0
    requires NamesInv(g, n, base) && Extends(n.s.packets, m) && Closed(g, m) && Clean(g, base, done, m)
    ensures var r := End(g, n, steps); r.s.errors == 0 && NamesInv(g, r, base) && Extends(r.s.packets, m)
    decreases |steps|
  {
    hide Inv, NamesInv, Extends, Closed, Clean;
    if steps != [] {
      CleanStep(g, n, base, done, steps[0], m);
      NextKeepsInv(g, n, base, done, steps[0]);
      CleanRun(g, Next(g, n, steps[0]), base, done, steps[1..], m);
    }
  }

  /** Whether a complete pass ends without errors does not depend on its interleaving:
      it does exactly if some side packets are closed under the generators and clean. */
  lemma ErrorFreeIffClean(g: Graph, base: map<nat, int>, done: set<nat>, steps: seq<nat>)
    requires WellFormed(g) && Settled(g, base, done)
    requires Execution(g, Start(g, base, done), steps) && Idle(End(g, Start(g, base, done), steps))
    ensures End(g, Start(g, base, done), steps).s.errors == 0 <==>
            exists m :: Extends(base, m) && Closed(g, m) && Clean(g, base, done, m)
  {
    var start := Start(g, base, done);
    if End(g, start, steps).s.errors == 0 {
      ErrorFreeIsClean(g, base, done, steps);
    }
    forall m | Extends(base, m) && Closed(g, m) && Clean(g, base, done, m) ensures End(g, start, steps).s.errors == 0 {
      StartSatisfiesInv(g, base, done);
      CleanRun(g, start, base, done, steps, m);
    }
  }

  /** Confluence: complete interleavings agree on whether there were errors, and, if
      there were none, on the side packets and on which generators have run. */
  lemma RunsAgree(g: Graph, base: map<nat, int>, a: seq<nat>, b: seq<nat>)
    requires WellFormed(g) && Execution(g, Start(g, base, {}), a) && Execution(g, Start(g, base, {}), b)
    requires Idle(End(g, Start(g, base, {}), a)) && Idle(End(g, Start(g, base, {}), b))
    ensures var (m, n) := (End(g, Start(g, base, {}), a), End(g, Start(g, base, {}), b));
            && (m.s.errors == 0 <==> n.s.errors == 0)
            && (m.s.errors == 0 ==> m.s.packets == n.s.packets && m.s.scheduled == n.s.scheduled)
  {
    ErrorFreeIffClean(g, base, {}, a);
    ErrorFreeIffClean(g, base, {}, b);
    var m, n := End(g, Start(g, base, {}), a), End(g, Start(g, base, {}), b);
    if m.s.errors == 0 {
      RunEndsAtLeast(g, base, a);
      RunEndsAtLeast(g, base, b);
      LeastIsUnique(g, base, m.s.packets, n.s.packets);
    }
  }

  /** A generator never runs twice: no two tasks are for the same one, and a task of a
      later pass is never for one that ran before. */
  lemma RunsAtMostOnce(g: Graph, base: map<nat, int>, done: set<nat>, steps: seq<nat>, v: nat, w: nat)
    requires WellFormed(g) && Execution(g, Start(g, base, done), steps)
    requires v < w < |End(g, Start(g, base, done), steps).workers|
    ensures var n := End(g, Start(g, base, done), steps);
            n.workers[w].generator.Some? && n.workers[v].generator != n.workers[w].generator
              && n.workers[w].generator.value !in done
  {
    StartSatisfiesInv(g, base, done);
    ExecutionKeepsInv(g, Start(g, base, done), steps, base, done);
  }

  // ----- Two stages -----

  function ScheduledOnes(s: Shared): set<nat> {
    set i | 0 <= i < |s.scheduled| && s.scheduled[i]
  }

  lemma {:induction false} NonScheduledAre(scheduled: seq<bool>, n: nat, i: nat)
    requires n <= |scheduled|
    ensures i in NonScheduled(scheduled, n) <==> i < n && !scheduled[i]
  {
    if n > 0 {
      NonScheduledAre(scheduled, n - 1, i);
    }
  }

  /** The next pass goes on where this one ended: exactly what it scheduled is done. */
  lemma NextPassGoesOn(g: Graph, s: Shared)
    requires |s.scheduled| == |g.inputs|
    ensures Others(g, NonScheduled(s.scheduled, |s.scheduled|)) == ScheduledOnes(s)
  {
    forall i: nat ensures i in NonScheduled(s.scheduled, |s.scheduled|) <==> i < |s.scheduled| && !s.scheduled[i] {
      NonScheduledAre(s.scheduled, |s.scheduled|, i);
    }
  }

  /** RunGraphSetup rejects a side packet that is already defined. */
  predicate MayAdd(m: map<nat, int>, extra: map<nat, int>) {
    forall name :: name in extra ==> name !in m
  }

  /** Initialize with `base`, then RunGraphSetup with `extra`, gives the least closed
      set over both together, as one run on both would. */
  lemma StagesCompose(g: Graph, base: map<nat, int>, extra: map<nat, int>, first: seq<nat>, second: seq<nat>)
    requires WellFormed(g) && Execution(g, Start(g, base, {}), first)
    requires var m := End(g, Start(g, base, {}), first); Idle(m) && m.s.errors == 0 && MayAdd(m.s.packets, extra)
    requires var m := End(g, Start(g, base, {}), first);
             Execution(g, Start(g, m.s.packets + extra, ScheduledOnes(m.s)), second)
    requires var m := End(g, Start(g, base, {}), first);
             var n := End(g, Start(g, m.s.packets + extra, ScheduledOnes(m.s)), second); Idle(n) && n.s.errors == 0
    ensures var m := End(g, Start(g, base, {}), first);
            IsLeastClosed(g, base + extra, End(g, Start(g, m.s.packets + extra, ScheduledOnes(m.s)), second).s.packets)
  {
    var m := End(g, Start(g, base, {}), first);
    RunEndsAtLeast(g, base, first);
    SecondStageEndsAtLeast(g, base, m.s, extra, second);
  }

  lemma StartsWithin(g: Graph, base: map<nat, int>, extra: map<nat, int>, m: map<nat, int>, larger: map<nat, int>)
    requires WellFormed(g) && IsLeastClosed(g, base, m) && MayAdd(m, extra)
    requires Extends(base + extra, larger) && Closed(g, larger)
    ensures Extends(m + extra, larger)
  {
    hide Closed;
    assert Extends(base, larger);
  }

  lemma SecondStageEndsClosed(g: Graph, m: Shared, extra: map<nat, int>, n: System)
    requires WellFormed(g) && Closed(g, m.packets) && MayAdd(m.packets, extra)
    requires forall i :: i in ScheduledOnes(m) ==> i < |g.inputs| && Runnable(g, i, m.packets)
    requires Inv(g, n, m.packets + extra, ScheduledOnes(m)) && Idle(n) && n.s.errors == 0
    ensures Extends(m.packets, n.s.packets) && Closed(g, n.s.packets)
  {
    var packets, done := m.packets + extra, ScheduledOnes(m);
    assert Extends(m.packets, packets);
    forall i | 0 <= i < |g.inputs| && Runnable(g, i, n.s.packets)
      ensures Produced(g, i, Values(g, i, n.s.packets), n.s.packets)
    {
      if i in done {
        ExtendedInputs(g, i, m.packets, n.s.packets);
      } else {
        EndOfRun(g, n, packets, done, i);
      }
    }
  }

  lemma SecondStageEndsAtLeast(g: Graph, base: map<nat, int>, m: Shared, extra: map<nat, int>, steps: seq<nat>)
    requires WellFormed(g) && IsLeastClosed(g, base, m.packets) && MayAdd(m.packets, extra)
    requires |m.scheduled| == |g.inputs| && forall i :: 0 <= i < |g.inputs| ==> (m.scheduled[i] <==>
            Runnable(g, i, m.packets))
    requires Execution(g, Start(g, m.packets + extra, ScheduledOnes(m)), steps)
    requires var n := End(g, Start(g, m.packets + extra, ScheduledOnes(m)), steps); Idle(n) && n.s.errors == 0
    ensures IsLeastClosed(g, base + extra, End(g, Start(g, m.packets + extra, ScheduledOnes(m)), steps).s.packets)
  {
    var packets, done := m.packets + extra, ScheduledOnes(m);
    var start := Start(g, packets, done);
    StartSatisfiesInv(g, packets, done);
    ExecutionKeepsInv(g, start, steps, packets, done);
    var n := End(g, start, steps);
    assert Extends(m.packets, n.s.packets) && Closed(g, n.s.packets) by {
      SecondStageEndsClosed(g, m, extra, n);
    }
    assert Extends(base + extra, n.s.packets);
    hide Inv, Closed;
    forall larger | Extends(base + extra, larger) && Closed(g, larger) ensures Extends(n.s.packets, larger) {
      StartsWithin(g, base, extra, m.packets, larger);
      ExecutionStaysWithin(g, start, steps, packets, done, larger);
    }
  }

  /** RunGraphSetup goes on from the side packets of Initialize and the new ones. */
  function SecondStart(g: Graph, m: Shared, extra: map<nat, int>): System {
    Start(g, m.packets + extra, ScheduledOnes(m))
  }

  /** Both stages are complete, as far as they happen. */
  ghost predicate StagesEnd(g: Graph, base: map<nat, int>, extra: map<nat, int>, first: seq<nat>, second: seq<nat>) {
    && Execution(g, Start(g, base, {}), first) && Idle(End(g, Start(g, base, {}), first))
    && var m := End(g, Start(g, base, {}), first).s;
       m.errors == 0 && MayAdd(m.packets, extra) ==>
         Execution(g, SecondStart(g, m, extra), second) && Idle(End(g, SecondStart(g, m, extra), second))
  }

  ghost predicate StagesSucceed(g: Graph, base: map<nat, int>, extra: map<nat, int>, first: seq<nat>, second: seq<nat>)
    requires StagesEnd(g, base, extra, first, second)
  {
    var m := End(g, Start(g, base, {}), first).s;
    m.errors == 0 && MayAdd(m.packets, extra) && End(g, SecondStart(g, m, extra), second).s.errors == 0
  }

  /** The side packets that a clean whole run could leave. */
  ghost predicate CleanlyClosed(g: Graph, base: map<nat, int>, done: set<nat>, m: map<nat, int>)
    requires WellFormed(g)
  {
    Extends(base, m) && Closed(g, m) && Clean(g, base, done, m)
  }

  lemma CleanForLess(g: Graph, base: map<nat, int>, less: map<nat, int>, m: map<nat, int>)
    requires WellFormed(g) && CleanlyClosed(g, base, {}, m) && Extends(less, base)
    ensures CleanlyClosed(g, less, {}, m)
  {
    forall i | 0 <= i < |g.inputs| && FreshOutputs(g, i, base) ensures FreshOutputs(g, i, less) {
    }
    hide FreshOutputs, DisjointOutputs, Runnable, Values, Mistyped, Closed;
  }

  /** What the first stage leaves for the second. */
  lemma FirstStageLeaves(g: Graph, base: map<nat, int>, first: seq<nat>, m: map<nat, int>)
    requires WellFormed(g) && CleanlyClosed(g, base, {}, m)
    requires Execution(g, Start(g, base, {}), first)
    ensures var n := End(g, Start(g, base, {}), first);
            n.s.errors == 0 && Extends(n.s.packets, m) && NamesInv(g, n, base) && Inv(g, n, base, {})
  {
    StartSatisfiesInv(g, base, {});
    CleanRun(g, Start(g, base, {}), base, {}, first, m);
    ExecutionKeepsInv(g, Start(g, base, {}), first, base, {});
  }

  /** A name of the first stage is not given again: it was there at the start, or a
      generator that ran gave it. */
  lemma NewToSecondStage(g: Graph, n: System, base: map<nat, int>, extra: map<nat, int>, m: map<nat, int>, i: nat)
    requires Inv(g, n, base, {}) && n.s.errors == 0 && NamesInv(g, n, base) && Extends(n.s.packets, m)
    requires Clean(g, base + extra, {}, m) && i < |g.inputs| && Runnable(g, i, m) && !HasRun(n.workers, i)
    ensures FreshOutputs(g, i, n.s.packets + extra)
  {
    assert Runs(g, {}, i, m) && FreshOutputs(g, i, base + extra);
    hide Inv, Clean, Extends, HasRun, Runnable, Values, Runs;
    forall j | 0 <= j < |g.outputs| && HasRun(n.workers, j) ensures DisjointOutputs(g, i, j) {
      RunnersAreDisjoint(g, n, base, base + extra, {}, m, i, j);
    }
    forall name | name in g.outputs[i] ensures name !in n.s.packets + extra {
      assert !Given(g, n.workers, name) && name !in base + extra;
    }
  }

  lemma ExtraIsNew(g: Graph, n: System, base: map<nat, int>, extra: map<nat, int>, m: map<nat, int>)
    requires Inv(g, n, base, {}) && n.s.errors == 0 && NamesInv(g, n, base) && Extends(n.s.packets, m)
    requires Clean(g, base + extra, {}, m) && MayAdd(base, extra)
    ensures MayAdd(n.s.packets, extra)
  {
    forall j | 0 <= j < |g.inputs| && HasRun(n.workers, j) ensures FreshOutputs(g, j, base + extra) {
      RunWorker(g, n, base, {}, j);
      ExtendedInputs(g, j, n.s.packets, m);
      assert Runs(g, {}, j, m);
    }
    hide Inv, Clean, Extends, HasRun, Runnable, Values, Runs;
    forall name | name in extra ensures name !in n.s.packets {
      assert name !in base && !Given(g, n.workers, name);
    }
  }

  /** If one run would be clean, so is the second stage. */
  lemma SecondStageIsClean(g: Graph, n: System, base: map<nat, int>, extra: map<nat, int>, m: map<nat, int>)
    requires Inv(g, n, base, {}) && Idle(n) && n.s.errors == 0 && NamesInv(g, n, base) && Extends(n.s.packets, m)
    requires CleanlyClosed(g, base + extra, {}, m) && MayAdd(base, extra)
    ensures MayAdd(n.s.packets, extra) && CleanlyClosed(g, n.s.packets + extra, ScheduledOnes(n.s), m)
  {
    ExtraIsNew(g, n, base, extra, m);
    var done := ScheduledOnes(n.s);
    forall i | 0 <= i < |g.inputs| && Runs(g, done, i, m)
      ensures g.succeeds(i, Values(g, i, m)) && FreshOutputs(g, i, n.s.packets + extra)
    {
      assert Runs(g, {}, i, m);
      HasRunIsScheduled(g, n, base, i);
      NewToSecondStage(g, n, base, extra, m, i);
    }
    forall i, j | 0 <= i < j < |g.inputs| && Runs(g, done, i, m) && Runs(g, done, j, m)
      ensures DisjointOutputs(g, i, j)
    {
      assert Runs(g, {}, i, m) && Runs(g, {}, j, m);
    }
    hide Inv, NamesInv, FreshOutputs, DisjointOutputs, Runs, Closed, Mistyped;
  }

  lemma HasRunIsScheduled(g: Graph, n: System, base: map<nat, int>, i: nat)
    requires Inv(g, n, base, {}) && i < |g.inputs|
    ensures HasRun(n.workers, i) ==> i in ScheduledOnes(n.s)
  {
  }

  /** At the end of the first stage its generators are settled, also for the second. */
  lemma FirstStageSettles(g: Graph, n: System, base: map<nat, int>, extra: map<nat, int>)
    requires Inv(g, n, base, {}) && Idle(n) && n.s.errors == 0 && MayAdd(n.s.packets, extra)
    requires Clean(g, base, {}, n.s.packets)
    ensures Settled(g, n.s.packets + extra, ScheduledOnes(n.s))
    ensures forall i :: 0 <= i < |g.inputs| ==> (i in ScheduledOnes(n.s) <==> Runnable(g, i, n.s.packets))
  {
    var packets := n.s.packets + extra;
    forall i | 0 <= i < |g.inputs|
      ensures n.s.scheduled[i] <==> Runnable(g, i, n.s.packets)
      ensures n.s.scheduled[i] ==>
                Runnable(g, i, packets) && !Mistyped(g, i, packets) && Produced(g, i, Values(g, i, packets), packets)
    {
      EndOfRun(g, n, base, {}, i);
      if n.s.scheduled[i] {
        assert Extends(n.s.packets, packets) && !Mistyped(g, i, n.s.packets);
        ExtendedInputs(g, i, n.s.packets, packets);
        TypedStays(g, i, n.s.packets, packets);
      }
    }
  }

  /** Clean stages make a clean whole. */
  lemma WholeIsClean(g: Graph, base: map<nat, int>, extra: map<nat, int>, n: map<nat, int>, done: set<nat>,
                     m: map<nat, int>)
    requires WellFormed(g) && CleanlyClosed(g, base, {}, n) && MayAdd(n, extra)
    requires CleanlyClosed(g, n + extra, done, m)
    requires forall i :: 0 <= i < |g.inputs| ==> (i in done <==> Runnable(g, i, n))
    ensures CleanlyClosed(g, base + extra, {}, m)
  {
    forall i | 0 <= i < |g.inputs| && Runnable(g, i, m)
      ensures g.succeeds(i, Values(g, i, m)) && FreshOutputs(g, i, base + extra)
    {
      if i in done {
        assert Extends(n + extra, m);
        FirstStageIsFresh(g, base, extra, n, m, i);
      } else {
        assert Runs(g, done, i, m);
      }
    }
    forall i, j | 0 <= i < j < |g.inputs| && Runnable(g, i, m) && Runnable(g, j, m) ensures DisjointOutputs(g, i, j) {
      StagesAreDisjoint(g, base, extra, n, done, m, i, j);
    }
    hide FreshOutputs, DisjointOutputs, Closed, Mistyped;
  }

  lemma FirstStageIsFresh(g: Graph, base: map<nat, int>, extra: map<nat, int>, n: map<nat, int>, m: map<nat, int>,
                          i: nat)
    requires WellFormed(g) && CleanlyClosed(g, base, {}, n) && MayAdd(n, extra) && Extends(n + extra, m)
    requires i < |g.inputs| && Runnable(g, i, n)
    ensures Runnable(g, i, m) && g.succeeds(i, Values(g, i, m)) && FreshOutputs(g, i, base + extra)
  {
    assert Runs(g, {}, i, n) && Extends(n, m);
    ExtendedInputs(g, i, n, m);
    assert FreshOutputs(g, i, base) && Produced(g, i, Values(g, i, n), n);
  }

  lemma StagesAreDisjoint(g: Graph, base: map<nat, int>, extra: map<nat, int>, n: map<nat, int>, done: set<nat>,
                          m: map<nat, int>, i: nat, j: nat)
    requires WellFormed(g) && CleanlyClosed(g, base, {}, n) && CleanlyClosed(g, n + extra, done, m) && MayAdd(n, extra)
    requires forall i :: 0 <= i < |g.inputs| ==> (i in done <==> Runnable(g, i, n))
    requires i < j < |g.inputs| && Runnable(g, i, m) && Runnable(g, j, m)
    ensures DisjointOutputs(g, i, j)
  {
    hide Mistyped, Values;
    if i in done && j in done {
      assert Runs(g, {}, i, n) && Runs(g, {}, j, n);
    } else if i !in done && j !in done {
      assert Runs(g, done, i, m) && Runs(g, done, j, m);
    } else {
      var (early, late) := if i in done then (i, j) else (j, i);
      assert Runs(g, done, late, m) && FreshOutputs(g, late, n + extra);
      assert Produced(g, early, Values(g, early, n), n);
      hide CleanlyClosed;
      assert DisjointOutputs(g, early, late) && DisjointOutputs(g, late, early);
    }
  }

  /** Initialize and then RunGraphSetup succeed exactly if one run on both inputs
      would, and then leave the same side packets. */
  lemma StagesAgreeWithOneRun(g: Graph, base: map<nat, int>, extra: map<nat, int>, first: seq<nat>, second: seq<nat>,
                              whole: seq<nat>)
    requires WellFormed(g) && StagesEnd(g, base, extra, first, second)
    requires Execution(g, Start(g, base + extra, {}), whole) && Idle(End(g, Start(g, base + extra, {}), whole))
    ensures StagesSucceed(g, base, extra, first, second) <==>
            MayAdd(base, extra) && End(g, Start(g, base + extra, {}), whole).s.errors == 0
    ensures StagesSucceed(g, base, extra, first, second) ==>
            End(g, SecondStart(g, End(g, Start(g, base, {}), first).s, extra), second).s.packets
            == End(g, Start(g, base + extra, {}), whole).s.packets
  {
    if StagesSucceed(g, base, extra, first, second) {
      SuccessfulStages(g, base, extra, first, second);
      ErrorFreeIffClean(g, base + extra, {}, whole);
      RunEndsAtLeast(g, base + extra, whole);
      StagesCompose(g, base, extra, first, second);
      LeastIsUnique(g, base + extra, End(g, Start(g, base + extra, {}), whole).s.packets,
                    End(g, SecondStart(g, End(g, Start(g, base, {}), first).s, extra), second).s.packets);
    }
    if MayAdd(base, extra) && End(g, Start(g, base + extra, {}), whole).s.errors == 0 {
      ErrorFreeIsClean(g, base + extra, {}, whole);
      StagesFollow(g, base, extra, first, second, End(g, Start(g, base + extra, {}), whole).s.packets);
    }
  }

  lemma SuccessfulStages(g: Graph, base: map<nat, int>, extra: map<nat, int>, first: seq<nat>, second: seq<nat>)
    requires WellFormed(g) && StagesEnd(g, base, extra, first, second) && StagesSucceed(g, base, extra, first, second)
    ensures MayAdd(base, extra)
    ensures exists m :: CleanlyClosed(g, base + extra, {}, m)
  {
    var n := End(g, Start(g, base, {}), first);
    ErrorFreeIsClean(g, base, {}, first);
    StartSatisfiesInv(g, base, {});
    ExecutionKeepsInv(g, Start(g, base, {}), first, base, {});
    FirstStageSettles(g, n, base, extra);
    hide Clean, Closed, Inv, Settled;
    ErrorFreeIsClean(g, n.s.packets + extra, ScheduledOnes(n.s), second);
    WholeIsClean(g, base, extra, n.s.packets, ScheduledOnes(n.s), End(g, SecondStart(g, n.s, extra), second).s.packets);
  }

  lemma StagesFollow(g: Graph, base: map<nat, int>, extra: map<nat, int>, first: seq<nat>, second: seq<nat>,
                     m: map<nat, int>)
    requires WellFormed(g) && StagesEnd(g, base, extra, first, second)
    requires MayAdd(base, extra) && CleanlyClosed(g, base + extra, {}, m)
    ensures StagesSucceed(g, base, extra, first, second)
  {
    var n := End(g, Start(g, base, {}), first);
    CleanForLess(g, base + extra, base, m);
    FirstStageLeaves(g, base, first, m);
    ErrorFreeIsClean(g, base, {}, first);
    SecondStageIsClean(g, n, base, extra, m);
    FirstStageSettles(g, n, base, extra);
    hide Clean, Closed, Inv, NamesInv, Settled;
    ErrorFreeIffClean(g, n.s.packets + extra, ScheduledOnes(n.s), second);
  }

  // ----- Every interleaving ends -----

  /** How many steps a worker can still take, at most. */
  function Remaining(size: nat, phase: Phase): int {
    match phase
    case Pending(_) => size + 5
    case Generating(_) => size + 4
    case Scan(next) => size - next + 2
    case Ending => 1
    case Done => 0
  }

  function AllRemaining(size: nat, workers: seq<Worker>): int {
    if workers == [] then 0
    else AllRemaining(size, workers[..|workers| - 1]) + Remaining(size, workers[|workers| - 1].phase)
  }

  function Unscheduled(scheduled: seq<bool>): nat {
    if scheduled == [] then 0
    else Unscheduled(scheduled[..|scheduled| - 1]) + if scheduled[|scheduled| - 1] then 0 else 1
  }

  function StepsLeft(g: Graph, n: System): int {
    AllRemaining(|g.inputs|, n.workers) + (|g.inputs| + 5) * Unscheduled(n.s.scheduled)
  }

  lemma {:induction false} RemainingUpdate(size: nat, workers: seq<Worker>, w: nat, k: Worker)
    requires w < |workers|
    ensures AllRemaining(size, workers[w := k]) ==
            AllRemaining(size, workers) - Remaining(size, workers[w].phase) + Remaining(size, k.phase)
  {
    var last := |workers| - 1;
    if w == last {
      assert workers[w := k][..last] == workers[..last];
    } else {
      RemainingUpdate(size, workers[..last], w, k);
      assert workers[w := k][..last] == workers[..last][w := k];
    }
  }

  lemma {:induction false} UnscheduledUpdate(scheduled: seq<bool>, i: nat)
    requires i < |scheduled| && !scheduled[i]
    ensures Unscheduled(scheduled[i := true]) == Unscheduled(scheduled) - 1
  {
    var last := |scheduled| - 1;
    if i == last {
      assert scheduled[i := true][..last] == scheduled[..last];
    } else {
      UnscheduledUpdate(scheduled[..last], i);
      assert scheduled[i := true][..last] == scheduled[..last][i := true];
    }
  }

  lemma {:induction false} RemainingIsNonNegative(size: nat, workers: seq<Worker>)
    requires forall w :: 0 <= w < |workers| ==> Remaining(size, workers[w].phase) >= 0
    ensures AllRemaining(size, workers) >= 0
  {
    if workers != [] {
      RemainingIsNonNegative(size, workers[..|workers| - 1]);
    }
  }

  lemma ScheduleUsesUp(g: Graph, n: System, w: nat)
    requires AtSchedule(g, n, w)
    ensures StepsLeft(g, Next(g, n, w)) < StepsLeft(g, n)
  {
    hide Mistyped, Runnable, Values, Emplaced, Unscheduled;
    var r, size, unscheduled := Next(g, n, w), |g.inputs|, Unscheduled(n.s.scheduled);
    var moved := n.workers[w := r.workers[w]];
    RemainingUpdate(size, n.workers, w, r.workers[w]);
    assert r.workers == moved + [r.workers[|moved|]] && r.workers[..|moved|] == moved;
    UnscheduledUpdate(n.s.scheduled, n.workers[w].phase.next);
    assert (size + 5) * (unscheduled - 1) == (size + 5) * unscheduled - (size + 5);
  }

  /** Each step uses up some of what is left. */
  lemma NextUsesUp(g: Graph, n: System, w: nat)
    requires Possible(g, n, w)
    ensures StepsLeft(g, Next(g, n, w)) < StepsLeft(g, n)
  {
    var r, k := Next(g, n, w), n.workers[w];
    if AtSchedule(g, n, w) {
      ScheduleUsesUp(g, n, w);
    } else {
      if k.phase.Generating? {
        EmplacedAdds(g, n.s, k.generator.value, k.phase.values, |g.outputs[k.generator.value]|);
      }
      hide Emplaced, AllRemaining, Mistyped, Values, Runnable;
      assert r.s.scheduled == n.s.scheduled && r.workers == n.workers[w := r.workers[w]];
      RemainingUpdate(|g.inputs|, n.workers, w, r.workers[w]);
    }
  }

  /** No interleaving goes on for ever. */
  lemma {:induction false} ExecutionsEnd(g: Graph, n: System, steps: seq<nat>, base: map<nat, int>, done: set<nat>)
    requires Inv(g, n, base, done) && Execution(g, n, steps)
    ensures |steps| <= StepsLeft(g, n)
    decreases |steps|
  {
    hide StepsLeft;
    if steps == [] {
      StepsLeftIsNonNegative(g, n, base, done);
    } else {
      NextUsesUp(g, n, steps[0]);
      NextKeepsInv(g, n, base, done, steps[0]);
      ExecutionsEnd(g, Next(g, n, steps[0]), steps[1..], base, done);
    }
  }

  lemma StepsLeftIsNonNegative(g: Graph, n: System, base: map<nat, int>, done: set<nat>)
    requires Inv(g, n, base, done)
    ensures StepsLeft(g, n) >= 0
  {
    forall w | 0 <= w < |n.workers| ensures Remaining(|g.inputs|, n.workers[w].phase) >= 0 {
      assert WorkerInv(g, n, n.workers[w]);
    }
    RemainingIsNonNegative(|g.inputs|, n.workers);
  }
}
