/** From input sets to invocations: the calculator contexts that hold prepared
    inputs, filled by the scheduling loop and drained by ProcessNode. */
module Invocations {
  import opened Results
  import opened Timestamps
  import opened InputStreams
  import opened SyncSets
  import InputSynchronisation

  /** The timestamps to process in one context, and one queue of slots per stream. */
  datatype Context = Context(timestamps: seq<Timestamp>, shards: seq<seq<Slot>>)

  /** What one pass of the scheduling loop found: the readiness, and the input set
      that FillInputSet then popped. */
  datatype Evaluation = AtNotReady(bound: Timestamp) | AtProcess(t: Timestamp, slots: seq<Slot>) | AtClose

  /** The contexts of a node, with the timestamps handed to invocations so far and
      the number of invocations scheduled. */
  datatype Contexts = Contexts(
    parallel: bool,
    batchSize: nat,
    numStreams: nat,
    main: Context,
    active: map<Timestamp, Context>,
    preparedForClose: bool,
    handed: seq<Timestamp>,
    scheduled: nat)

  function EmptyContext(numStreams: nat): Context {
    Context([], seq(numStreams, _ => []))
  }

  function Push(c: Context, t: Timestamp, slots: seq<Slot>): Context
    requires |slots| == |c.shards|
  {
    Context(c.timestamps + [t], seq(|c.shards|, i requires 0 <= i < |c.shards| => c.shards[i] + [slots[i]]))
  }

  /** ClearCurrentInputs: drops the current timestamp and one slot of each shard. */
  function Clear(c: Context): Context
    requires c.timestamps != []
  {
    Context(c.timestamps[1..],
            seq(|c.shards|, i requires 0 <= i < |c.shards| => if c.shards[i] == [] then [] else c.shards[i][1..]))
  }

  predicate Fits(s: Contexts, e: Evaluation) {
    e.AtProcess? ==> |e.slots| == s.numStreams == |s.main.shards|
  }

  /** PrepareCalculatorContext, the push and the schedule callback of one input set. */
  function Prepare(s: Contexts, t: Timestamp, slots: seq<Slot>): Contexts
    requires Fits(s, AtProcess(t, slots))
  {
    var c := Push(if s.parallel then EmptyContext(s.numStreams) else s.main, t, slots);
    var r := if s.parallel then s.(active := s.active[t := c]) else s.(main := c);
    r.(handed := s.handed + [t],
       scheduled := if |c.timestamps| == s.batchSize then s.scheduled + 1 else s.scheduled)
  }

  function PrepareClose(s: Contexts): Contexts {
    s.(main := s.main.(timestamps := s.main.timestamps + [DONE]),
       handed := s.handed + [DONE], scheduled := s.scheduled + 1, preparedForClose := true)
  }

  /** Whether the scheduling loop stops at this evaluation. */
  predicate Stops(e: Evaluation) {
    !e.AtProcess?
  }

  function Apply(s: Contexts, e: Evaluation): Contexts
    requires Fits(s, e)
  {
    match e
    case AtNotReady(_) => s
    case AtProcess(t, slots) => Prepare(s, t, slots)
    case AtClose => if s.active != map[] || s.preparedForClose then s else PrepareClose(s)
  }

  function ApplyAll(s: Contexts, evaluations: seq<Evaluation>, n: nat): (r: Contexts)
    requires n <= |evaluations| && forall e :: e in evaluations ==> Fits(s, e)
    ensures forall e :: Fits(r, e) <==> Fits(s, e)
    ensures r.batchSize == s.batchSize && r.parallel == s.parallel
  {
    if n == 0 then s else Apply(ApplyAll(s, evaluations, n - 1), evaluations[n - 1])
  }

  datatype ProcessResult = ResultOk | ResultStop | ResultError

  datatype Ending = NoInputs | AllProcessed | Interrupted(result: ProcessResult) | NodeClosed

  function ClearFirst(c: Context, n: nat): (r: Context)
    requires n <= |c.timestamps|
    ensures |r.timestamps| == |c.timestamps| - n && |r.shards| == |c.shards|
  {
    if n == 0 then c else Clear(ClearFirst(c, n - 1))
  }

  lemma {:induction false} ClearFirstIsDrop(c: Context, n: nat)
    requires n <= |c.timestamps|
    ensures ClearFirst(c, n).timestamps == c.timestamps[n..]
  {
    if n > 0 {
      ClearFirstIsDrop(c, n - 1);
    }
  }

  lemma FirstLeft(c: Context, n: nat)
    requires n < |c.timestamps|
    ensures var r := ClearFirst(c, n).timestamps; |r| == |c.timestamps| - n && r[0] == c.timestamps[n]
  {
    ClearFirstIsDrop(c, n);
  }

  lemma ClearNext(c: Context, n: nat)
    requires n < |c.timestamps|
    ensures ClearFirst(c, n + 1) == Clear(ClearFirst(c, n))
  {
  }

  ghost predicate DoneOnlyLast(timestamps: seq<Timestamp>) {
    forall k :: 0 <= k < |timestamps| ==>
      if timestamps[k] == DONE then k == |timestamps| - 1 else IsAllowedInStream(timestamps[k])
  }

  class InputStreamHandler {
    var parallel: bool
    var batchSize: nat
    var numStreams: nat
    var main: Context
    var active: map<Timestamp, Context>
    var preparedForClose: bool
    ghost var handed: seq<Timestamp>
    ghost var scheduled: nat

    ghost function State(): Contexts
      reads this
    {
      Contexts(parallel, batchSize, numStreams, main, active, preparedForClose, handed, scheduled)
    }

    /** Prepares a context and fills it: a new one for each timestamp in parallel
        execution, the main one otherwise. True when the batch is complete. */
    method PrepareInputs(t: Timestamp, slots: seq<Slot>) returns (complete: bool)
      requires Fits(State(), AtProcess(t, slots))
      modifies this
      ensures State() == Prepare(old(State()), t, slots)
      ensures complete <==> State().scheduled == old(State()).scheduled + 1
      ensures !complete <==> State().scheduled == old(State()).scheduled
    {
      var c := Push(if parallel then EmptyContext(numStreams) else main, t, slots);
      if parallel {
        active := active[t := c];
      } else {
        main := c;
      }
      handed := handed + [t];
      complete := |c.timestamps| == batchSize;
      if complete {
        scheduled := scheduled + 1;
      }
    }

    /** Schedules the call to Close, unless parallel invocations are in progress or
        it was scheduled before. */
    method PrepareForClose() returns (done: bool)
      modifies this
      ensures State() == Apply(old(State()), AtClose)
      ensures done <==> old(active == map[] && !preparedForClose)
    {
      done := active == map[] && !preparedForClose;
      if done {
        main := main.(timestamps := main.timestamps + [DONE]);
        handed := handed + [DONE];
        scheduled := scheduled + 1;
        preparedForClose := true;
      }
    }

    /** `evaluations` are what GetNodeReadiness and FillInputSet return in turn, up
        to one that is not ready for Process. The loop follows them until one of
        them stops it or the allowance is used up. */
    method ScheduleInvocations(maxAllowance: nat, evaluations: seq<Evaluation>)
      returns (anyScheduled: bool, inputBound: Timestamp, used: nat)
      requires evaluations != [] && Stops(evaluations[|evaluations| - 1])
      requires forall e :: e in evaluations ==> Fits(State(), e)
      modifies this
      ensures used <= |evaluations| && State() == ApplyAll(old(State()), evaluations, used)
      ensures forall k :: 0 <= k < used - 1 ==> !Stops(evaluations[k])
      ensures State().scheduled <= old(State()).scheduled + maxAllowance
      ensures State().scheduled == old(State()).scheduled + maxAllowance || (used > 0 && Stops(evaluations[used - 1]))
      ensures anyScheduled <==> State().scheduled > old(State()).scheduled
      ensures inputBound ==
              if used > 0 && evaluations[used - 1].AtNotReady? then BatchBound(State(), evaluations[used - 1].bound)
              else UNSET
    {
      inputBound, used := UNSET, 0;
      ghost var start := State();
      var invocations := 0;
      while invocations < maxAllowance && (used == 0 || !Stops(evaluations[used - 1]))
        invariant used <= |evaluations| && State() == ApplyAll(start, evaluations, used)
        invariant invocations <= maxAllowance && State().scheduled == start.scheduled + invocations
        invariant forall k :: 0 <= k < used - 1 ==> !Stops(evaluations[k])
        invariant inputBound ==
                  if used > 0 && evaluations[used - 1].AtNotReady? then BatchBound(State(), evaluations[used - 1].bound)
                  else UNSET
        decreases |evaluations| - used
      {
        var e := evaluations[used];
        assert Fits(start, e) && Fits(State(), e);
        used := used + 1;
        match e {
          case AtNotReady(bound) =>
            inputBound := if batchSize > 1 && main.timestamps != [] then main.timestamps[0] else bound;
          case AtProcess(t, slots) =>
            var complete := PrepareInputs(t, slots);
            invocations := if complete then invocations + 1 else invocations;
          case AtClose =>
            var done := PrepareForClose();
            invocations := if done then invocations + 1 else invocations;
        }
      }
      anyScheduled := invocations > 0;
    }

    method ClearCurrentInputs()
      requires main.timestamps != []
      modifies this
      ensures State() == old(State()).(main := Clear(old(main)))
    {
      main := Clear(main);
    }

    /** Runs the main context: one invocation for each of its timestamps, whose
        results are `results`, until one is not Ok. At Done the node closes, and the
        source CHECKs that no other timestamp is left. */
    method ProcessNode(results: seq<ProcessResult>) returns (processed: nat, end: Ending)
      requires |results| >= |main.timestamps| && DoneOnlyLast(main.timestamps)
      modifies this
      ensures processed <= |old(main.timestamps)| && State() == old(State()).(main := ClearFirst(old(main), processed))
      ensures forall j :: 0 <= j < processed - 1 ==> results[j] == ResultOk
      ensures match end
              case NoInputs => old(main.timestamps) == []
              case AllProcessed => 0 < processed == |old(main.timestamps)| && results[processed - 1] == ResultOk
              case Interrupted(r) => 0 < processed && results[processed - 1] == r != ResultOk
              case NodeClosed =>
                && processed == |old(main.timestamps)| - 1 && old(main.timestamps)[processed] == DONE
                && (processed > 0 ==> results[processed - 1] == ResultOk)
    {
      ghost var start := State();
      var n := |main.timestamps|;
      processed := 0;
      end := NoInputs;
      assert ClearFirst(start.main, 0) == start.main;
      hide ClearFirst, Clear;
      while processed < n
        invariant processed <= n && State() == start.(main := ClearFirst(start.main, processed))
        invariant forall j :: 0 <= j < processed ==> results[j] == ResultOk && start.main.timestamps[j] != DONE
        invariant end == if processed == 0 then NoInputs else AllProcessed
      {
        FirstLeft(start.main, processed);
        if main.timestamps[0] == DONE {
          assert |main.timestamps| == 1;
          return processed, NodeClosed;
        }
        ClearCurrentInputs();
        ClearNext(start.main, processed);
        processed := processed + 1;
        if results[processed - 1] != ResultOk {
          return processed, Interrupted(results[processed - 1]);
        }
        end := AllProcessed;
      }
    }

    /** Moves the context with the smallest timestamp back to the idle ones. */
    method RecycleCalculatorContext(t: Timestamp)
      requires t in active && forall u :: u in active ==> t <= u
      modifies this
      ensures State() == old(State()).(active := old(active) - {t})
    {
      active := active - {t};
    }
  }

  /** The bound reported when the node is not ready: the first timestamp of an
      unfinished batch, else the bound of the input streams. */
  function BatchBound(s: Contexts, bound: Timestamp): Timestamp {
    if s.batchSize > 1 && s.main.timestamps != [] then s.main.timestamps[0] else bound
  }

  // ----- Batches -----

  predicate AllProcess(evaluations: seq<Evaluation>) {
    forall k :: 0 <= k < |evaluations| ==> evaluations[k].AtProcess?
  }

  /** Sequential execution: while input sets come in and none is processed, exactly the
      one that completes the batch schedules an invocation, and the bound reported stays
      at the first timestamp of the batch, if there is more than one in a batch. */
  lemma {:induction false} BatchIsScheduledWhenFull(s: Contexts, evaluations: seq<Evaluation>, n: nat, bound: Timestamp)
    requires !s.parallel && s.batchSize >= 1 && AllProcess(evaluations) && n <= |evaluations|
    requires forall e :: e in evaluations ==> Fits(s, e)
    ensures var r := ApplyAll(s, evaluations, n);
            && |r.main.timestamps| == |s.main.timestamps| + n
            && r.scheduled == s.scheduled
                 + (if |s.main.timestamps| < s.batchSize <= |s.main.timestamps| + n then 1 else 0)
            && (s.main.timestamps != [] ==> r.main.timestamps[0] == s.main.timestamps[0])
            && (s.main.timestamps == [] && n > 0 ==> r.main.timestamps[0] == evaluations[0].t)
            && (s.batchSize > 1 && n > 0 ==>
                  BatchBound(r, bound) == if s.main.timestamps != [] then s.main.timestamps[0] else evaluations[0].t)
            && (r.main.timestamps == [] || s.batchSize == 1 ==> BatchBound(r, bound) == bound)
  {
    if n > 0 {
      BatchIsScheduledWhenFull(s, evaluations, n - 1, bound);
      assert evaluations[n - 1].AtProcess?;
    }
  }

  /** Parallel execution: every input set gets a context of its own, at its timestamp,
      and an invocation at once. */
  lemma {:induction false} EachIsScheduledInParallel(s: Contexts, evaluations: seq<Evaluation>, n: nat)
    requires s.parallel && s.batchSize == 1 && AllProcess(evaluations) && n <= |evaluations|
    requires forall e :: e in evaluations ==> Fits(s, e)
    ensures var r := ApplyAll(s, evaluations, n);
            && r.scheduled == s.scheduled + n && r.main == s.main
            && (forall k :: 0 <= k < n ==> evaluations[k].t in r.active)
            && (forall t :: t in r.active ==> t in s.active || exists k :: 0 <= k < n && evaluations[k].t == t)
  {
    if n > 0 {
      EachIsScheduledInParallel(s, evaluations, n - 1);
      assert evaluations[n - 1].AtProcess?;
    }
  }

  /** The call to Close is scheduled when the streams have ended and no parallel context is
      in use, whatever batch is pending, and never again. */
  lemma CloseIsScheduledOnce(s: Contexts)
    ensures Fits(s, AtClose)
    ensures var r := Apply(s, AtClose);
            && r.scheduled == s.scheduled + (if s.active == map[] && !s.preparedForClose then 1 else 0)
            && (r.preparedForClose <==> s.preparedForClose || s.active == map[])
            && r.main.timestamps == s.main.timestamps + (if r.scheduled > s.scheduled then [DONE] else [])
            && r.main.shards == s.main.shards && r.active == s.active
            && Apply(r, AtClose) == r
  {
  }

  // ----- Order and alignment over a run -----

  /** The number of pending timestamps that have input packets: all but Done. */
  function Pending(timestamps: seq<Timestamp>): nat {
    if timestamps != [] && timestamps[|timestamps| - 1] == DONE then |timestamps| - 1 else |timestamps|
  }

  ghost predicate SlotFits(slot: Slot, t: Timestamp) {
    slot.Present? ==> slot.packet.timestamp == t
  }

  /** Each shard holds one slot for each pending timestamp, and a packet in it
      carries that timestamp. */
  ghost predicate Aligned(c: Context, numStreams: nat) {
    && |c.shards| == numStreams
    && DoneOnlyLast(c.timestamps)
    && (forall i :: 0 <= i < numStreams ==> ShardAligned(c.shards[i], c.timestamps))
  }

  ghost predicate ShardAligned(shard: seq<Slot>, timestamps: seq<Timestamp>) {
    && |shard| == Pending(timestamps)
    && (forall k :: 0 <= k < |shard| ==> SlotFits(shard[k], timestamps[k]))
  }

  /** Strictly increasing allowed timestamps, then Done at most once. */
  ghost predicate HandedInOrder(handed: seq<Timestamp>) {
    && (forall j, k :: 0 <= j < k < |handed| ==> handed[j] < handed[k])
    && (forall k :: 0 <= k < |handed| ==> IsAllowedInStream(handed[k]) || (handed[k] == DONE && k == |handed| - 1))
  }

  ghost predicate Good(s: Contexts) {
    && s.batchSize >= 1 && (s.parallel ==> s.batchSize == 1)
    && Aligned(s.main, s.numStreams)
    && (forall t :: t in s.active ==> Aligned(s.active[t], s.numStreams) && t in s.handed && IsAllowedInStream(t))
    && HandedInOrder(s.handed)
    && (s.preparedForClose <==> s.handed != [] && s.handed[|s.handed| - 1] == DONE)
    && (s.preparedForClose ==> s.active == map[])
    && (s.main.timestamps != [] && s.main.timestamps[|s.main.timestamps| - 1] == DONE <==> s.preparedForClose)
  }

  /** What the synchronised streams guarantee of the next input set. */
  ghost predicate Consistent(s: Contexts, e: Evaluation) {
    && Fits(s, e)
    && (e.AtProcess? ==>
          && !s.preparedForClose && IsAllowedInStream(e.t)
          && (s.handed != [] ==> s.handed[|s.handed| - 1] < e.t)
          && (forall i :: 0 <= i < |e.slots| ==> SlotFits(e.slots[i], e.t)))
  }

  // ----- Synchronisation and invocations together -----

  /** A node's synchronised streams, and the contexts of its invocations. */
  datatype System = System(node: InputSynchronisation.Node, contexts: Contexts)

  function Times(sets: seq<InputSynchronisation.InputSet>): (r: seq<Timestamp>)
    ensures |r| == |sets| && forall k :: 0 <= k < |r| ==> r[k] == sets[k].t
  {
    seq(|sets|, k requires 0 <= k < |sets| => sets[k].t)
  }

  /** The contexts were handed the first of the node's input sets, in order, and Done
      only after all of them. */
  ghost predicate FollowsNode(n: InputSynchronisation.Node, s: Contexts) {
    if s.preparedForClose then n.phase.ReadyToClose? && s.handed == Times(n.handed) + [DONE]
    else s.handed <= Times(n.handed)
  }

  /** What an evaluation of the streams returns: the next input set that
      synchronisation hands out, or that there will be no more. */
  ghost predicate Delivers(n: InputSynchronisation.Node, s: Contexts, e: Evaluation) {
    match e
    case AtNotReady(_) => true
    case AtProcess(t, slots) =>
      && Fits(s, e) && |s.handed| < |n.handed|
      && n.handed[|s.handed|] == InputSynchronisation.InputSet(t, AsOptions(slots))
    case AtClose => n.phase.ReadyToClose? && |s.handed| >= |n.handed|
  }

  function AsOptions(slots: seq<Slot>): (r: seq<Option<Packet>>)
    ensures |r| == |slots| && forall i :: 0 <= i < |r| ==> r[i] == InputSynchronisation.AsOption(slots[i])
  {
    seq(|slots|, i requires 0 <= i < |slots| => InputSynchronisation.AsOption(slots[i]))
  }

  /** The input set that synchronisation hands out next fits what was handed out before. */
  lemma HandedSetsAreConsistent(n: InputSynchronisation.Node, s: Contexts, e: Evaluation)
    requires InputSynchronisation.Inv(n) && Good(s) && FollowsNode(n, s) && Delivers(n, s, e)
    ensures Consistent(s, e)
  {
    if e.AtProcess? {
      var k := |s.handed|;
      assert s.handed == Times(n.handed)[..k];
      forall i | 0 <= i < |e.slots| ensures SlotFits(e.slots[i], e.t) {
        if e.slots[i].Present? {
          assert n.handed[k].slots[i].Some?;
          InputSynchronisation.HandedPacketsFit(n, k, i);
        }
      }
    }
  }

  datatype Move =
    | Synchronise(event: InputSynchronisation.Event)
    | Evaluate(e: Evaluation)
    | ClearMain
    | ClearActive(t: Timestamp)
    | Recycle(t: Timestamp)

  ghost predicate CanMove(y: System, m: Move) {
    match m
    case Synchronise(event) => InputSynchronisation.Possible(y.node, event)
    case Evaluate(e) => Delivers(y.node, y.contexts, e)
    case ClearMain => y.contexts.main.timestamps != [] && y.contexts.main.timestamps[0] != DONE
    case ClearActive(t) =>
      t in y.contexts.active && y.contexts.active[t].timestamps != [] && y.contexts.active[t].timestamps[0] != DONE
    case Recycle(t) => t in y.contexts.active
  }

  ghost function Moved(y: System, m: Move): System
    requires CanMove(y, m)
  {
    var s := y.contexts;
    match m
    case Synchronise(event) => y.(node := InputSynchronisation.Next(y.node, event))
    case Evaluate(e) => y.(contexts := Apply(s, e))
    case ClearMain => y.(contexts := s.(main := Clear(s.main)))
    case ClearActive(t) => y.(contexts := s.(active := s.active[t := Clear(s.active[t])]))
    case Recycle(t) => y.(contexts := s.(active := s.active - {t}))
  }

  /** Position `k` of the context has the timestamp of the input set, and the packets of
      its streams, each in the shard of its own stream. */
  predicate HoldsSet(c: Context, k: nat, inputs: InputSynchronisation.InputSet) {
    && k < |c.timestamps| && c.timestamps[k] == inputs.t && |c.shards| == |inputs.slots|
    && forall i :: 0 <= i < |c.shards| ==>
         k < |c.shards[i]| && InputSynchronisation.AsOption(c.shards[i][k]) == inputs.slots[i]
  }

  /** How many input sets were handed to the contexts. */
  function SetsHanded(s: Contexts): int {
    |s.handed| - if s.preparedForClose then 1 else 0
  }

  /** The main context holds the last input sets handed to it, in their order. */
  ghost predicate MainHolds(sets: seq<InputSynchronisation.InputSet>, main: Context, handed: int) {
    && Pending(main.timestamps) <= handed <= |sets|
    && HoldsFrom(sets, main, handed - Pending(main.timestamps))
  }

  ghost predicate HoldsFrom(sets: seq<InputSynchronisation.InputSet>, c: Context, from: nat)
    requires from + Pending(c.timestamps) <= |sets|
  {
    forall k: nat :: k < Pending(c.timestamps) ==> HoldsAt(sets, c, from, k)
  }

  predicate HoldsAt(sets: seq<InputSynchronisation.InputSet>, c: Context, from: nat, k: nat)
    requires from + k < |sets|
  {
    HoldsSet(c, k, sets[from + k])
  }

  /** A parallel context holds the input set at its timestamp, or has been cleared. */
  ghost predicate ActiveHolds(sets: seq<InputSynchronisation.InputSet>, c: Context, t: Timestamp) {
    c.timestamps == [] || (c.timestamps == [t] && exists k :: 0 <= k < |sets| && HoldsSet(c, 0, sets[k]))
  }

  ghost predicate ContentsHold(n: InputSynchronisation.Node, s: Contexts) {
    && (s.parallel ==> Pending(s.main.timestamps) == 0) && (!s.parallel ==> s.active == map[])
    && MainHolds(n.handed, s.main, if s.parallel then 0 else SetsHanded(s))
    && (forall t :: t in s.active ==> ActiveHolds(n.handed, s.active[t], t))
  }

  ghost predicate GoodSystem(y: System) {
    && InputSynchronisation.Inv(y.node) && Good(y.contexts) && FollowsNode(y.node, y.contexts)
    && ContentsHold(y.node, y.contexts)
  }

  function Fresh(parallel: bool, batchSize: nat, numStreams: nat): Contexts {
    Contexts(parallel, batchSize, numStreams, EmptyContext(numStreams), map[], false, [], 0)
  }

  /** A run starts with empty contexts. */
  lemma StartIsGood(types: seq<PacketType>, sizes: seq<int>, processTimestamps: bool, parallel: bool, batchSize: nat)
    requires |types| == |sizes| && batchSize >= 1 && (parallel ==> batchSize == 1)
    ensures GoodSystem(System(InputSynchronisation.Start(types, sizes, processTimestamps),
                              Fresh(parallel, batchSize, |types|)))
  {
    hide InputSynchronisation.Inv, Good, ContentsHold;
    InputSynchronisation.StartSatisfiesInv(types, sizes, processTimestamps);
    FreshIsGood(InputSynchronisation.Start(types, sizes, processTimestamps), parallel, batchSize, |types|);
  }

  lemma FreshIsGood(n: InputSynchronisation.Node, parallel: bool, batchSize: nat, numStreams: nat)
    requires batchSize >= 1 && (parallel ==> batchSize == 1)
    ensures Good(Fresh(parallel, batchSize, numStreams)) && ContentsHold(n, Fresh(parallel, batchSize, numStreams))
  {
    EmptyIsAligned(numStreams);
    hide Aligned, HoldsAt;
  }

  lemma PushHolds(sets: seq<InputSynchronisation.InputSet>, c: Context, numStreams: nat, handed: nat, t: Timestamp,
                  slots: seq<Slot>)
    requires Aligned(c, numStreams) && |slots| == numStreams && t != DONE
    requires MainHolds(sets, c, handed) && handed < |sets| && Pending(c.timestamps) == |c.timestamps|
    requires sets[handed] == InputSynchronisation.InputSet(t, AsOptions(slots))
    ensures MainHolds(sets, Push(c, t, slots), handed + 1)
    ensures HoldsSet(Push(c, t, slots), |c.timestamps|, sets[handed])
  {
    var r, n := Push(c, t, slots), |c.timestamps|;
    assert HoldsSet(r, n, sets[handed]) by {
      forall i | 0 <= i < |r.shards| ensures n < |r.shards[i]| && r.shards[i][n] == slots[i] {
        assert ShardAligned(c.shards[i], c.timestamps);
      }
    }
    var from: nat := handed - n;
    forall k: nat | k <= n ensures HoldsAt(sets, r, from, k) {
      assert k < n ==> HoldsAt(sets, c, from, k);
    }
    hide HoldsAt;
  }

  lemma ClearHolds(sets: seq<InputSynchronisation.InputSet>, c: Context, numStreams: nat, handed: nat)
    requires Aligned(c, numStreams) && MainHolds(sets, c, handed) && c.timestamps != [] && c.timestamps[0] != DONE
    ensures MainHolds(sets, Clear(c), handed) && Pending(Clear(c).timestamps) == Pending(c.timestamps) - 1
  {
    var r, n := Clear(c), Pending(c.timestamps);
    var from: nat := handed - n + 1;
    forall k: nat | k < n - 1 ensures HoldsAt(sets, r, from, k) {
      assert HoldsAt(sets, c, handed - n, k + 1);
    }
    hide HoldsAt;
  }

  lemma MoreSetsHold(sets: seq<InputSynchronisation.InputSet>, more: seq<InputSynchronisation.InputSet>, s: Contexts,
                     handed: int)
    requires sets <= more && MainHolds(sets, s.main, handed)
    requires forall t :: t in s.active ==> ActiveHolds(sets, s.active[t], t)
    ensures MainHolds(more, s.main, handed)
    ensures forall t :: t in s.active ==> ActiveHolds(more, s.active[t], t)
  {
    hide HoldsSet;
    var from: nat := handed - Pending(s.main.timestamps);
    forall k: nat | k < Pending(s.main.timestamps) ensures HoldsAt(more, s.main, from, k) {
      assert HoldsAt(sets, s.main, from, k);
    }
    forall t | t in s.active && s.active[t].timestamps != [] ensures ActiveHolds(more, s.active[t], t) {
      var k :| 0 <= k < |sets| && HoldsSet(s.active[t], 0, sets[k]);
      assert HoldsSet(s.active[t], 0, more[k]);
    }
  }

  /** Preparing an input set puts each packet into the shard of its stream. */
  lemma PrepareHolds(n: InputSynchronisation.Node, s: Contexts, t: Timestamp, slots: seq<Slot>)
    requires Good(s) && FollowsNode(n, s) && ContentsHold(n, s) && Delivers(n, s, AtProcess(t, slots)) && t != DONE
    requires Consistent(s, AtProcess(t, slots))
    ensures ContentsHold(n, Prepare(s, t, slots))
  {
    EmptyIsAligned(s.numStreams);
    hide Good, FollowsNode, Consistent, HoldsSet;
    NothingPending(s, t, slots);
    if s.parallel {
      var c := EmptyContext(s.numStreams);
      assert MainHolds(n.handed, c, |s.handed|);
      PushHolds(n.handed, c, s.numStreams, |s.handed|, t, slots);
      assert ActiveHolds(n.handed, Push(c, t, slots), t);
    } else {
      PushHolds(n.handed, s.main, s.numStreams, |s.handed|, t, slots);
    }
  }

  lemma NothingPending(s: Contexts, t: Timestamp, slots: seq<Slot>)
    requires Good(s) && Consistent(s, AtProcess(t, slots))
    ensures Aligned(s.main, s.numStreams) && |slots| == s.numStreams && !s.preparedForClose
    ensures Pending(s.main.timestamps) == |s.main.timestamps|
  {
    hide Aligned, HandedInOrder, SlotFits;
  }

  lemma PrepareCloseHolds(n: InputSynchronisation.Node, s: Contexts)
    requires ContentsHold(n, s) && Pending(s.main.timestamps) == |s.main.timestamps| && !s.preparedForClose
    ensures ContentsHold(n, PrepareClose(s))
  {
    var r, from := PrepareClose(s), (if s.parallel then 0 else |s.handed|) - |s.main.timestamps|;
    assert Pending(r.main.timestamps) == |s.main.timestamps|;
    forall k: nat | k < |s.main.timestamps| ensures HoldsAt(n.handed, r.main, from, k) {
      assert HoldsAt(n.handed, s.main, from, k);
    }
    hide HoldsAt;
  }

  lemma ClearKeepsAligned(c: Context, numStreams: nat)
    requires Aligned(c, numStreams) && c.timestamps != [] && c.timestamps[0] != DONE
    ensures Aligned(Clear(c), numStreams)
  {
  }

  lemma PushKeepsAligned(c: Context, numStreams: nat, t: Timestamp, slots: seq<Slot>)
    requires Aligned(c, numStreams) && |slots| == numStreams && IsAllowedInStream(t)
    requires c.timestamps != [] ==> c.timestamps[|c.timestamps| - 1] != DONE
    requires forall i :: 0 <= i < |slots| ==> SlotFits(slots[i], t)
    ensures Aligned(Push(c, t, slots), numStreams)
  {
  }

  lemma EmptyIsAligned(numStreams: nat)
    ensures Aligned(EmptyContext(numStreams), numStreams)
  {
  }

  lemma HandedGrows(handed: seq<Timestamp>, t: Timestamp)
    requires HandedInOrder(handed) && (handed != [] ==> handed[|handed| - 1] < t)
    requires IsAllowedInStream(t)
    ensures HandedInOrder(handed + [t]) && t !in handed
  {
  }

  /** Preparing an input set never finds its timestamp in use, and keeps the order
      and the alignment. */
  lemma PrepareKeepsGood(s: Contexts, t: Timestamp, slots: seq<Slot>)
    requires Good(s) && Consistent(s, AtProcess(t, slots))
    ensures t !in s.active && Good(Prepare(s, t, slots))
  {
    hide Aligned, HandedInOrder;
    var c := if s.parallel then EmptyContext(s.numStreams) else s.main;
    EmptyIsAligned(s.numStreams);
    PushKeepsAligned(c, s.numStreams, t, slots);
    HandedGrows(s.handed, t);
    assert t in s.handed + [t];
    assert forall u :: u in s.handed ==> u in s.handed + [t];
  }

  lemma PrepareCloseKeepsGood(s: Contexts)
    requires Good(s) && s.active == map[] && !s.preparedForClose
    ensures Good(PrepareClose(s))
  {
  }

  lemma EvaluationKeepsGood(y: System, e: Evaluation)
    requires GoodSystem(y) && CanMove(y, Evaluate(e))
    ensures GoodSystem(Moved(y, Evaluate(e)))
  {
    hide Aligned, HandedInOrder, InputSynchronisation.Inv, ContentsHold, HoldsSet;
    var n, s := y.node, y.contexts;
    HandedSetsAreConsistent(n, s, e);
    if e.AtProcess? {
      PrepareKeepsGood(s, e.t, e.slots);
      assert s.handed + [e.t] <= Times(n.handed);
      PrepareHolds(n, s, e.t, e.slots);
    } else if e.AtClose? && s.active == map[] && !s.preparedForClose {
      PrepareCloseKeepsGood(s);
      PrepareCloseHolds(n, s);
    }
  }

  /** Synchronisation only appends to what it hands out, and nothing once it is ready
      to close. */
  lemma HandedOnlyGrows(n: InputSynchronisation.Node, event: InputSynchronisation.Event)
    requires InputSynchronisation.Possible(n, event)
    ensures n.handed <= InputSynchronisation.Next(n, event).handed
    ensures n.phase.ReadyToClose? ==>
              InputSynchronisation.Next(n, event).phase.ReadyToClose?
                && InputSynchronisation.Next(n, event).handed == n.handed
  {
  }

  lemma SynchronisingKeepsGood(y: System, event: InputSynchronisation.Event)
    requires GoodSystem(y) && CanMove(y, Synchronise(event))
    ensures GoodSystem(Moved(y, Synchronise(event)))
  {
    hide Good, InputSynchronisation.Inv, InputSynchronisation.Next;
    InputSynchronisation.NextKeepsInv(y.node, event);
    HandedOnlyGrows(y.node, event);
    var s := y.contexts;
    MoreSetsHold(y.node.handed, InputSynchronisation.Next(y.node, event).handed, s,
                 if s.parallel then 0 else SetsHanded(s));
    hide MainHolds, ActiveHolds;
  }

  lemma ClearingKeepsGood(y: System, m: Move)
    requires GoodSystem(y) && CanMove(y, m) && (m.ClearMain? || m.ClearActive? || m.Recycle?)
    ensures GoodSystem(Moved(y, m))
  {
    hide HandedInOrder, InputSynchronisation.Inv, HoldsSet;
    match m
    case ClearMain => ClearMainKeepsGood(y);
    case ClearActive(t) => ClearActiveKeepsGood(y, t);
    case Recycle(_) => hide Aligned, MainHolds, ActiveHolds;
  }

  lemma ClearMainKeepsGood(y: System)
    requires GoodSystem(y) && CanMove(y, ClearMain)
    ensures GoodSystem(Moved(y, ClearMain))
  {
    hide HandedInOrder, InputSynchronisation.Inv, ActiveHolds;
    var s := y.contexts;
    ClearKeepsAligned(s.main, s.numStreams);
    ClearHolds(y.node.handed, s.main, s.numStreams, if s.parallel then 0 else SetsHanded(s));
    hide Aligned, MainHolds;
  }

  lemma ClearActiveKeepsGood(y: System, t: Timestamp)
    requires GoodSystem(y) && CanMove(y, ClearActive(t))
    ensures GoodSystem(Moved(y, ClearActive(t)))
  {
    hide HandedInOrder, InputSynchronisation.Inv, MainHolds, HoldsSet;
    var s := y.contexts;
    ClearKeepsAligned(s.active[t], s.numStreams);
    assert ActiveHolds(y.node.handed, s.active[t], t);
    assert Clear(s.active[t]).timestamps == [];
    hide Aligned;
  }

  lemma MoveKeepsGood(y: System, m: Move)
    requires GoodSystem(y) && CanMove(y, m)
    ensures GoodSystem(Moved(y, m)) && y.contexts.handed <= Moved(y, m).contexts.handed
  {
    hide GoodSystem;
    match m
    case Synchronise(event) => SynchronisingKeepsGood(y, event);
    case Evaluate(e) => EvaluationKeepsGood(y, e);
    case _ => ClearingKeepsGood(y, m);
  }

  ghost predicate CanRun(y: System, moves: seq<Move>)
    decreases |moves|
  {
    moves == [] || (CanMove(y, moves[0]) && CanRun(Moved(y, moves[0]), moves[1..]))
  }

  ghost function Run(y: System, moves: seq<Move>): System
    requires CanRun(y, moves)
    decreases |moves|
  {
    if moves == [] then y else Run(Moved(y, moves[0]), moves[1..])
  }

  lemma {:induction false} MovesKeepGood(y: System, moves: seq<Move>)
    requires GoodSystem(y) && CanRun(y, moves)
    ensures GoodSystem(Run(y, moves)) && y.contexts.handed <= Run(y, moves).contexts.handed
    decreases |moves|
  {
    hide GoodSystem, CanMove, Moved;
    if moves != [] {
      MoveKeepsGood(y, moves[0]);
      MovesKeepGood(Moved(y, moves[0]), moves[1..]);
    }
  }

  /** From the start of a run, however producers, scheduling and processing interleave:
      invocations are handed the synchronised input sets in their order, so that the
      timestamps strictly increase; Done follows the last of them, once, when no parallel
      context is active, and stays pending last in the main context; every context stays
      aligned, and holds the packets of its input sets, each in the shard of its stream. */
  lemma RunKeepsGood(types: seq<PacketType>, sizes: seq<int>, processTimestamps: bool, parallel: bool, batchSize: nat,
          moves: seq<Move>)
    requires |types| == |sizes| && batchSize >= 1 && (parallel ==> batchSize == 1)
    requires CanRun(System(InputSynchronisation.Start(types, sizes, processTimestamps),
                           Fresh(parallel, batchSize, |types|)), moves)
    ensures var y := Run(System(InputSynchronisation.Start(types, sizes, processTimestamps),
                                Fresh(parallel, batchSize, |types|)), moves);
            && Good(y.contexts) && HandedInOrder(y.contexts.handed)
            && (if y.contexts.preparedForClose
                then y.node.phase.ReadyToClose? && y.contexts.handed == Times(y.node.handed) + [DONE]
                else y.contexts.handed <= Times(y.node.handed))
            && ContentsHold(y.node, y.contexts)
  {
    StartIsGood(types, sizes, processTimestamps, parallel, batchSize);
    MovesKeepGood(System(InputSynchronisation.Start(types, sizes, processTimestamps),
                         Fresh(parallel, batchSize, |types|)), moves);
    hide InputSynchronisation.Inv, Aligned, ContentsHold;
  }
}
