/** Scheduler queues and the count of those that are not idle. Items enter a queue
    under its lock; the callbacks and the AddTask calls they call for come later, in
    any order. Each critical section, callback and AddTask call is one step. */
module TaskQueues {
  import opened Results

  // ----- Which item runs first -----

  datatype Item = Item(isOpenNode: bool, isSource: bool, layer: int, sourceProcessOrder: int, id: int)

  /** Whether `a` runs after `b`. */
  predicate RunsAfter(a: Item, b: Item) {
    if a.isOpenNode || b.isOpenNode then
      if !b.isOpenNode then false
      else if !a.isOpenNode then true
      else a.id > b.id
    else if a.isSource then
      if !b.isSource then true
      else if a.layer != b.layer then a.layer > b.layer
      else if a.sourceProcessOrder != b.sourceProcessOrder then a.sourceProcessOrder > b.sourceProcessOrder
      else a.id > b.id
    else if b.isSource then false
    else a.id < b.id
  }

  /** The priority queue needs a strict weak order; ties are items that agree on
      everything their kind compares. */
  lemma RunsAfterIsStrictWeakOrder(a: Item, b: Item, c: Item)
    ensures !RunsAfter(a, a)
    ensures RunsAfter(a, b) && RunsAfter(b, c) ==> RunsAfter(a, c)
    ensures !RunsAfter(a, b) && !RunsAfter(b, a) <==>
            && a.isOpenNode == b.isOpenNode && a.id == b.id
            && (!a.isOpenNode ==> a.isSource == b.isSource)
            && (!a.isOpenNode && a.isSource ==> a.layer == b.layer && a.sourceProcessOrder == b.sourceProcessOrder)
  {
  }

  /** The first of the greatest items among the first `n`. */
  function TopIndex(queue: seq<Item>, n: nat): (top: nat)
    requires 0 < n <= |queue|
    ensures top < n && forall k :: 0 <= k < n ==> !RunsAfter(queue[top], queue[k])
  {
    if n == 1 then 0
    else
      var top := TopIndex(queue, n - 1);
      if RunsAfter(queue[top], queue[n - 1]) then n - 1 else top
  }

  // ----- One queue -----

  /** The fields that mutex_ guards. */
  datatype QueueState = QueueState(queue: seq<Item>, toAdd: int, pending: int, running: int) {
    predicate IsIdle() {
      queue == [] && pending == 0
    }
  }

  /** GetTasksToSubmitToExecutor, which a section runs only on a running queue. */
  function Grabbed(s: QueueState): (QueueState, int) {
    if s.running > 0 then (s.(toAdd := 0, pending := s.pending + s.toAdd), s.toAdd) else (s, 0)
  }

  /** The new state, whether the queue was idle, and the tasks to submit. */
  function Adding(s: QueueState, item: Item): (QueueState, bool, int) {
    var (r, tasks) := Grabbed(s.(queue := s.queue + [item], toAdd := s.toAdd + 1));
    (r, s.IsIdle(), tasks)
  }

  function Taking(s: QueueState): (QueueState, Item)
    requires s.queue != []
  {
    var top := TopIndex(s.queue, |s.queue|);
    (s.(queue := s.queue[..top] + s.queue[top + 1..]), s.queue[top])
  }

  /** Exactly one item leaves the queue, and none that stays had to run before it. */
  lemma TakingRemovesTop(s: QueueState)
    requires s.queue != []
    ensures var (r, item) := Taking(s);
            && multiset(s.queue) == multiset(r.queue) + multiset{item}
            && (forall other :: other in r.queue ==> !RunsAfter(item, other))
  {
    hide RunsAfter;
    var top := TopIndex(s.queue, |s.queue|);
    hide TopIndex;
    var before, after := s.queue[..top], s.queue[top + 1..];
    assert s.queue == (before + [s.queue[top]]) + after;
    assert Taking(s).0.queue == before + after;
    forall other | other in before + after ensures !RunsAfter(s.queue[top], other) {
      assert other in s.queue;
    }
  }

  ghost predicate SomeOpenNode(queue: seq<Item>) {
    exists item :: item in queue && item.isOpenNode
  }

  ghost predicate SomeNonSource(queue: seq<Item>) {
    exists item :: item in queue && !item.isSource
  }

  /** Layers first, then process orders, then ids. */
  predicate IsEarlierSource(a: Item, b: Item) {
    a.layer < b.layer
    || (a.layer == b.layer && a.sourceProcessOrder < b.sourceProcessOrder)
    || (a.layer == b.layer && a.sourceProcessOrder == b.sourceProcessOrder && a.id <= b.id)
  }

  /** Which item runs: the OpenNode item with the least id, if there are any; else the
      non-source with the greatest id, if there are any; else the earliest source. */
  lemma TakenRunsFirst(s: QueueState)
    requires s.queue != []
    ensures Taking(s).1 in s.queue
    ensures SomeOpenNode(s.queue) ==>
              && Taking(s).1.isOpenNode
              && forall other :: other in s.queue && other.isOpenNode ==> Taking(s).1.id <= other.id
    ensures !SomeOpenNode(s.queue) && SomeNonSource(s.queue) ==>
              && !Taking(s).1.isSource
              && forall other :: other in s.queue && !other.isSource ==> other.id <= Taking(s).1.id
    ensures !SomeOpenNode(s.queue) && !SomeNonSource(s.queue) ==>
              forall other :: other in s.queue ==> IsEarlierSource(Taking(s).1, other)
  {
    var top := TopIndex(s.queue, |s.queue|);
    forall other | other in s.queue ensures !RunsAfter(s.queue[top], other) {
      var k :| 0 <= k < |s.queue| && s.queue[k] == other;
    }
    hide TopIndex;
  }

  function Finishing(s: QueueState): QueueState {
    s.(pending := s.pending - 1)
  }

  class SchedulerQueue {
    var queue: seq<Item>
    var numTasksToAdd: int
    var numPendingTasks: int
    var runningCount: int

    ghost function State(): QueueState
      reads this
    {
      QueueState(queue, numTasksToAdd, numPendingTasks, runningCount)
    }

    method Reset()
      modifies this
      ensures State() == QueueState(old(queue), 0, 0, 0)
    {
      numPendingTasks, numTasksToAdd, runningCount := 0, 0, 0;
    }

    method SetRunning(running: bool)
      modifies this
      ensures State() == old(State()).(running := old(runningCount) + if running then 1 else -1)
    {
      runningCount := runningCount + if running then 1 else -1;
    }

    method GetTasksToSubmitToExecutor() returns (tasks: int)
      modifies this
      ensures tasks == old(numTasksToAdd) && queue == old(queue) && runningCount == old(runningCount)
      ensures numTasksToAdd == 0 && numPendingTasks == old(numPendingTasks) + tasks
    {
      tasks := numTasksToAdd;
      numTasksToAdd := 0;
      numPendingTasks := numPendingTasks + tasks;
    }

    method AddItemToQueue(item: Item) returns (wasIdle: bool, tasks: int)
      modifies this
      ensures (State(), wasIdle, tasks) == Adding(old(State()), item)
    {
      wasIdle := queue == [] && numPendingTasks == 0;
      queue := queue + [item];
      numTasksToAdd := numTasksToAdd + 1;
      tasks := 0;
      if runningCount > 0 {
        tasks := GetTasksToSubmitToExecutor();
      }
    }

    method SubmitWaitingTasks() returns (tasks: int)
      modifies this
      ensures (State(), tasks) == Grabbed(old(State()))
    {
      tasks := 0;
      if runningCount > 0 {
        tasks := GetTasksToSubmitToExecutor();
      }
    }

    /** Takes the item that runs first; the source CHECKs that there is one. */
    method TakeNextItem() returns (item: Item)
      requires queue != []
      modifies this
      ensures (State(), item) == Taking(old(State()))
    {
      var top := 0;
      for n := 1 to |queue|
        invariant top == TopIndex(queue, n)
      {
        if RunsAfter(queue[top], queue[n]) {
          top := n;
        }
      }
      item := queue[top];
      queue := queue[..top] + queue[top + 1..];
    }

    method FinishTask() returns (isIdle: bool)
      modifies this
      ensures State() == Finishing(old(State())) && isIdle == State().IsIdle()
    {
      numPendingTasks := numPendingTasks - 1;
      isIdle := queue == [] && numPendingTasks == 0;
    }

    /** The source CHECKs that nothing is pending and that nothing was submitted
        that is still queued. */
    method CleanupAfterRun() returns (wasIdle: bool)
      requires numPendingTasks == 0 && numTasksToAdd == |queue|
      modifies this
      ensures State() == QueueState([], 0, 0, old(runningCount)) && wasIdle == old(State()).IsIdle()
    {
      wasIdle := queue == [] && numPendingTasks == 0;
      numTasksToAdd := 0;
      while queue != []
        invariant numPendingTasks == 0 && numTasksToAdd == 0 && runningCount == old(runningCount)
        decreases |queue|
      {
        var item := TakeNextItem();
      }
    }
  }

  // ----- All queues and threads -----

  /** A queue and the tasks its executor holds but has not started. */
  datatype Lane = Lane(s: QueueState, submitted: int)

  /** What a thread is doing: nothing, running a task of queue `q` that started at
      `stamp`, or on its way out of a section of `q`, with callbacks and AddTask
      calls to make. A task in the middle of adding an item is their `owner`. */
  datatype Activity =
    | Free
    | Executing(q: nat, stamp: nat)
    | OwesActive(q: nat, tasks: int, owner: Option<nat>)
    | OwesTasks(q: nat, tasks: int, owner: Option<nat>)
    | OwesIdle(q: nat)

  datatype System = System(lanes: seq<Lane>, activities: seq<Activity>, nonIdle: int, clock: nat)

  datatype Event =
    | AddItem(j: nat, q: nat, item: Item, owner: Option<nat>)
    | Submit(j: nat, q: nat)
    | Callback(j: nat)
    | AddTask(j: nat)
    | StartTask(j: nat, q: nat)
    | FinishTask(j: nat)
    | SetRunning(q: nat, running: bool)
    | Cleanup(j: nat, q: nat)

  ghost predicate IsExecuting(n: System, stamp: nat) {
    exists k :: 0 <= k < |n.activities| && n.activities[k].Executing? && n.activities[k].stamp == stamp
  }

  /** A task finishes only once the items it added are announced and submitted. */
  ghost predicate OwesNothing(n: System, stamp: nat) {
    forall k :: 0 <= k < |n.activities| ==>
      match n.activities[k]
      case OwesActive(_, _, owner) => owner != Some(stamp)
      case OwesTasks(_, _, owner) => owner != Some(stamp)
      case _ => true
  }

  ghost predicate NothingOutstanding(n: System, q: nat)
    requires q < |n.lanes|
  {
    && n.lanes[q].submitted == 0
    && forall k :: 0 <= k < |n.activities| && !n.activities[k].Free? && !n.activities[k].OwesIdle? ==>
         n.activities[k].q != q
  }

  ghost predicate Possible(n: System, e: Event) {
    match e
    case AddItem(j, q, _, owner) =>
      j < |n.activities| && n.activities[j].Free? && q < |n.lanes| && (owner.Some? ==> IsExecuting(n, owner.value))
    case Submit(j, q) => j < |n.activities| && n.activities[j].Free? && q < |n.lanes|
    case Callback(j) => j < |n.activities| && (n.activities[j].OwesActive? || n.activities[j].OwesIdle?)
    case AddTask(j) => j < |n.activities| && n.activities[j].OwesTasks? && n.activities[j].q < |n.lanes|
    case StartTask(j, q) => j < |n.activities| && n.activities[j].Free? && q < |n.lanes| && n.lanes[q].submitted > 0
    case FinishTask(j) =>
      j < |n.activities| && n.activities[j].Executing? && n.activities[j].q < |n.lanes|
        && OwesNothing(n, n.activities[j].stamp)
    case SetRunning(q, _) => q < |n.lanes|
    case Cleanup(j, q) => j < |n.activities| && n.activities[j].Free? && q < |n.lanes| && NothingOutstanding(n, q)
  }

  /** What is left to do after the callback: the AddTask calls, if any. */
  function Owing(q: nat, tasks: int, owner: Option<nat>): Activity {
    if tasks == 0 then Free else OwesTasks(q, tasks, owner)
  }

  function With(n: System, j: nat, a: Activity, q: nat, lane: Lane): System
    requires j < |n.activities| && q < |n.lanes|
  {
    n.(activities := n.activities[j := a], lanes := n.lanes[q := lane])
  }

  /** RunNextTask aborts on an empty queue; that the queue is never empty there is
      QueueIsNeverEmpty, below. */
  ghost function Next(n: System, e: Event): System
    requires Possible(n, e)
  {
    match e
    case AddItem(j, q, item, owner) =>
      var (s, wasIdle, tasks) := Adding(n.lanes[q].s, item);
      With(n, j, if wasIdle then OwesActive(q, tasks, owner) else Owing(q, tasks, owner), q, n.lanes[q].(s := s))
    case Submit(j, q) =>
      var (s, tasks) := Grabbed(n.lanes[q].s);
      With(n, j, Owing(q, tasks, None), q, n.lanes[q].(s := s))
    case Callback(j) =>
      var a := n.activities[j];
      if a.OwesIdle? then n.(activities := n.activities[j := Free], nonIdle := n.nonIdle - 1)
      else n.(activities := n.activities[j := Owing(a.q, a.tasks, a.owner)], nonIdle := n.nonIdle + 1)
    case AddTask(j) =>
      var a := n.activities[j];
      With(n, j, Owing(a.q, a.tasks - 1, a.owner), a.q, n.lanes[a.q].(submitted := n.lanes[a.q].submitted + 1))
    case StartTask(j, q) =>
      var l := n.lanes[q];
      With(n, j, Executing(q, n.clock), q,
           Lane(if l.s.queue == [] then l.s else Taking(l.s).0, l.submitted - 1)).(clock := n.clock + 1)
    case FinishTask(j) =>
      var q := n.activities[j].q;
      var s := Finishing(n.lanes[q].s);
      With(n, j, if s.IsIdle() then OwesIdle(q) else Free, q, n.lanes[q].(s := s))
    case SetRunning(q, running) =>
      var s := n.lanes[q].s;
      n.(lanes := n.lanes[q := n.lanes[q].(s := s.(running := s.running + if running then 1 else -1))])
    case Cleanup(j, q) =>
      var s := n.lanes[q].s;
      With(n, j, if s.IsIdle() then Free else OwesIdle(q), q,
           n.lanes[q].(s := s.(queue := [], toAdd := 0, pending := 0)))
  }

  // ----- Exact accounting -----

  /** What a thread contributes to a total: AddTask calls it owes to queue `q`, tasks
      of `q` it runs, and what its callback will do to the count, for `q` or for any
      queue. */
  datatype Measure = InHand(q: nat) | Running(q: nat) | BalanceAt(q: nat) | Balance

  predicate Concerns(a: Activity, q: nat) {
    a.Free? || a.q == q
  }

  function Of(m: Measure, a: Activity): int {
    match m
    case InHand(q) => if (a.OwesActive? || a.OwesTasks?) && a.q == q then a.tasks else 0
    case Running(q) => if a.Executing? && a.q == q then 1 else 0
    case BalanceAt(q) => if !Concerns(a, q) then 0 else if a.OwesIdle? then 1 else if a.OwesActive? then -1 else 0
    case Balance => if a.OwesIdle? then 1 else if a.OwesActive? then -1 else 0
  }

  function Total(m: Measure, activities: seq<Activity>): int {
    if activities == [] then 0 else Total(m, activities[..|activities| - 1]) + Of(m, activities[|activities| - 1])
  }

  function NonIdle(l: Lane): int {
    if l.s.IsIdle() then 0 else 1
  }

  function NonIdleLanes(lanes: seq<Lane>): int {
    if lanes == [] then 0 else NonIdleLanes(lanes[..|lanes| - 1]) + NonIdle(lanes[|lanes| - 1])
  }

  lemma {:induction false} TotalUpdate(m: Measure, activities: seq<Activity>, j: nat, a: Activity)
    requires j < |activities|
    ensures Total(m, activities[j := a]) == Total(m, activities) - Of(m, activities[j]) + Of(m, a)
  {
    var last := |activities| - 1;
    if j == last {
      assert activities[j := a][..last] == activities[..last];
    } else {
      TotalUpdate(m, activities[..last], j, a);
      assert activities[j := a][..last] == activities[..last][j := a];
    }
  }

  lemma {:induction false} NonIdleLanesUpdate(lanes: seq<Lane>, q: nat, l: Lane)
    requires q < |lanes|
    ensures NonIdleLanes(lanes[q := l]) == NonIdleLanes(lanes) - NonIdle(lanes[q]) + NonIdle(l)
  {
    var last := |lanes| - 1;
    if q == last {
      assert lanes[q := l][..last] == lanes[..last];
    } else {
      NonIdleLanesUpdate(lanes[..last], q, l);
      assert lanes[q := l][..last] == lanes[..last][q := l];
    }
  }

  /** Every item is waiting to be submitted, about to be submitted, or submitted;
      every pending task is about to be submitted, submitted, or running. */
  predicate LaneInv(l: Lane, inHand: int, running: int) {
    && l.s.toAdd >= 0 && l.submitted >= 0
    && |l.s.queue| == l.s.toAdd + inHand + l.submitted
    && l.s.pending == inHand + l.submitted + running
  }

  ghost predicate LaneOk(n: System, q: nat)
    requires q < |n.lanes|
  {
    LaneInv(n.lanes[q], Total(InHand(q), n.activities), Total(Running(q), n.activities))
  }

  predicate ActivityOk(a: Activity, lanes: nat) {
    match a
    case Free => true
    case OwesActive(q, tasks, _) => q < lanes && tasks >= 0
    case OwesTasks(q, tasks, _) => q < lanes && tasks > 0
    case _ => a.q < lanes
  }

  ghost predicate Inv(n: System) {
    && (forall j :: 0 <= j < |n.activities| ==> ActivityOk(n.activities[j], |n.lanes|))
    && (forall q :: 0 <= q < |n.lanes| ==> LaneOk(n, q))
    && n.nonIdle == NonIdleLanes(n.lanes) + Total(Balance, n.activities)
  }

  lemma {:induction false} TotalBounds(m: Measure, activities: seq<Activity>, j: nat, lanes: nat)
    requires (m.InHand? || m.Running?) && j < |activities| && forall k :: 0 <= k < |activities| ==>
      ActivityOk(activities[k], lanes)
    ensures 0 <= Of(m, activities[j]) <= Total(m, activities)
  {
    var last := |activities| - 1;
    TotalIsNonNegative(m, activities[..last], lanes);
    if j < last {
      TotalBounds(m, activities[..last], j, lanes);
    }
  }

  lemma {:induction false} TotalIsNonNegative(m: Measure, activities: seq<Activity>, lanes: nat)
    requires (m.InHand? || m.Running?) && forall k :: 0 <= k < |activities| ==> ActivityOk(activities[k], lanes)
    ensures 0 <= Total(m, activities)
  {
    if activities != [] {
      TotalIsNonNegative(m, activities[..|activities| - 1], lanes);
    }
  }

  /** A step that changes one thread and one queue keeps the accounting if the
      changes agree on that queue. */
  lemma WithKeepsInv(n: System, j: nat, a: Activity, q: nat, lane: Lane)
    requires Inv(n) && j < |n.activities| && q < |n.lanes|
    requires ActivityOk(a, |n.lanes|) && Concerns(a, q) && Concerns(n.activities[j], q)
    requires LaneInv(lane, Total(InHand(q), n.activities) - Of(InHand(q), n.activities[j]) + Of(InHand(q), a),
                     Total(Running(q), n.activities) - Of(Running(q), n.activities[j]) + Of(Running(q), a))
    ensures Inv(With(n, j, a, q, lane).(
      nonIdle := n.nonIdle + NonIdle(lane) - NonIdle(n.lanes[q]) + Of(Balance, a) - Of(Balance, n.activities[j])))
  {
    var r := With(n, j, a, q, lane).(
      nonIdle := n.nonIdle + NonIdle(lane) - NonIdle(n.lanes[q]) + Of(Balance, a) - Of(Balance, n.activities[j]));
    forall p | 0 <= p < |n.lanes| ensures LaneOk(r, p) {
      assert LaneOk(n, p);
      TotalUpdate(InHand(p), n.activities, j, a);
      TotalUpdate(Running(p), n.activities, j, a);
    }
    TotalUpdate(Balance, n.activities, j, a);
    NonIdleLanesUpdate(n.lanes, q, lane);
  }

  /** A callback changes the count by what its thread no longer owes. */
  lemma CallbackKeepsInv(n: System, j: nat)
    requires Inv(n) && Possible(n, Callback(j))
    ensures Inv(Next(n, Callback(j)))
  {
    var q := n.activities[j].q;
    var r := Next(n, Callback(j));
    assert LaneOk(n, q);
    WithKeepsInv(n, j, r.activities[j], q, n.lanes[q]);
    assert r == With(n, j, r.activities[j], q, n.lanes[q]).(nonIdle := r.nonIdle);
  }

  /** RunNextTask always finds an item. */
  lemma QueueIsNeverEmpty(n: System, q: nat)
    requires Inv(n) && q < |n.lanes| && n.lanes[q].submitted > 0
    ensures n.lanes[q].s.queue != []
  {
    assert LaneOk(n, q);
    TotalIsNonNegative(InHand(q), n.activities, |n.lanes|);
  }

  lemma {:induction false} TotalIsZero(m: Measure, activities: seq<Activity>)
    requires forall k :: 0 <= k < |activities| ==> Of(m, activities[k]) == 0
    ensures Total(m, activities) == 0
  {
    if activities != [] {
      TotalIsZero(m, activities[..|activities| - 1]);
    }
  }

  /** Once no task is outstanding, what CleanupAfterRun CHECKs is true. */
  lemma CleanupChecksHold(n: System, q: nat)
    requires Inv(n) && q < |n.lanes| && NothingOutstanding(n, q)
    ensures n.lanes[q].s.pending == 0 && n.lanes[q].s.toAdd == |n.lanes[q].s.queue|
    ensures Total(InHand(q), n.activities) == Total(Running(q), n.activities) == 0
  {
    assert LaneOk(n, q);
    TotalIsZero(InHand(q), n.activities);
    TotalIsZero(Running(q), n.activities);
  }

  lemma AddItemKeepsInv(n: System, j: nat, q: nat, item: Item, owner: Option<nat>)
    requires Inv(n) && Possible(n, AddItem(j, q, item, owner))
    ensures Inv(Next(n, AddItem(j, q, item, owner)))
  {
    var r := Next(n, AddItem(j, q, item, owner));
    assert LaneOk(n, q);
    TotalIsNonNegative(InHand(q), n.activities, |n.lanes|);
    TotalIsNonNegative(Running(q), n.activities, |n.lanes|);
    WithKeepsInv(n, j, r.activities[j], q, r.lanes[q]);
  }

  lemma SubmitKeepsInv(n: System, j: nat, q: nat)
    requires Inv(n) && Possible(n, Submit(j, q))
    ensures Inv(Next(n, Submit(j, q)))
  {
    var r := Next(n, Submit(j, q));
    assert LaneOk(n, q);
    TotalIsNonNegative(InHand(q), n.activities, |n.lanes|);
    TotalIsNonNegative(Running(q), n.activities, |n.lanes|);
    WithKeepsInv(n, j, r.activities[j], q, r.lanes[q]);
  }

  lemma AddTaskKeepsInv(n: System, j: nat)
    requires Inv(n) && Possible(n, AddTask(j))
    ensures Inv(Next(n, AddTask(j)))
  {
    var q := n.activities[j].q;
    var r := Next(n, AddTask(j));
    assert LaneOk(n, q);
    WithKeepsInv(n, j, r.activities[j], q, r.lanes[q]);
  }

  lemma StartTaskKeepsInv(n: System, j: nat, q: nat)
    requires Inv(n) && Possible(n, StartTask(j, q))
    ensures Inv(Next(n, StartTask(j, q)))
  {
    var r := Next(n, StartTask(j, q));
    QueueIsNeverEmpty(n, q);
    assert LaneOk(n, q);
    TotalIsNonNegative(InHand(q), n.activities, |n.lanes|);
    TotalIsNonNegative(Running(q), n.activities, |n.lanes|);
    WithKeepsInv(n, j, r.activities[j], q, r.lanes[q]);
    var w := r.(clock := n.clock);
    assert w == With(n, j, r.activities[j], q, r.lanes[q]) && Inv(w);
    assert forall p :: 0 <= p < |n.lanes| ==> LaneOk(w, p) ==> LaneOk(r, p);
  }

  lemma FinishTaskKeepsInv(n: System, j: nat)
    requires Inv(n) && Possible(n, FinishTask(j))
    ensures Inv(Next(n, FinishTask(j)))
  {
    var q := n.activities[j].q;
    var r := Next(n, FinishTask(j));
    assert LaneOk(n, q);
    TotalIsNonNegative(InHand(q), n.activities, |n.lanes|);
    TotalBounds(Running(q), n.activities, j, |n.lanes|);
    WithKeepsInv(n, j, r.activities[j], q, r.lanes[q]);
    assert NonIdle(n.lanes[q]) == 1;
  }

  lemma CleanupKeepsInv(n: System, j: nat, q: nat)
    requires Inv(n) && Possible(n, Cleanup(j, q))
    ensures Inv(Next(n, Cleanup(j, q)))
  {
    var r := Next(n, Cleanup(j, q));
    CleanupChecksHold(n, q);
    WithKeepsInv(n, j, r.activities[j], q, r.lanes[q]);
  }

  lemma SetRunningKeepsInv(n: System, q: nat, running: bool)
    requires Inv(n) && Possible(n, SetRunning(q, running))
    ensures Inv(Next(n, SetRunning(q, running)))
  {
    var r := Next(n, SetRunning(q, running));
    forall p | 0 <= p < |n.lanes| ensures LaneOk(r, p) {
      assert LaneOk(n, p);
    }
    NonIdleLanesUpdate(n.lanes, q, r.lanes[q]);
  }

  lemma NextKeepsInv(n: System, e: Event)
    requires Inv(n) && Possible(n, e)
    ensures Inv(Next(n, e))
  {
    hide Inv, Possible, Next;
    match e
    case AddItem(j, q, item, owner) => AddItemKeepsInv(n, j, q, item, owner);
    case Submit(j, q) => SubmitKeepsInv(n, j, q);
    case Callback(j) => CallbackKeepsInv(n, j);
    case AddTask(j) => AddTaskKeepsInv(n, j);
    case StartTask(j, q) => StartTaskKeepsInv(n, j, q);
    case FinishTask(j) => FinishTaskKeepsInv(n, j);
    case SetRunning(q, running) => SetRunningKeepsInv(n, q, running);
    case Cleanup(j, q) => CleanupKeepsInv(n, j, q);
  }

  ghost predicate Execution(n: System, events: seq<Event>)
    decreases |events|
  {
    events == [] || (Possible(n, events[0]) && Execution(Next(n, events[0]), events[1..]))
  }

  ghost function End(n: System, events: seq<Event>): System
    requires Execution(n, events)
    decreases |events|
  {
    if events == [] then n else End(Next(n, events[0]), events[1..])
  }

  function Start(lanes: nat, threads: nat): System {
    System(seq(lanes, _ => Lane(QueueState([], 0, 0, 0), 0)), seq(threads, _ => Free), 0, 0)
  }

  lemma {:induction false} NonIdleLanesIsZero(lanes: seq<Lane>)
    requires forall q :: 0 <= q < |lanes| ==> lanes[q].s.IsIdle()
    ensures NonIdleLanes(lanes) == 0
  {
    if lanes != [] {
      NonIdleLanesIsZero(lanes[..|lanes| - 1]);
    }
  }

  lemma StartSatisfiesInv(lanes: nat, threads: nat)
    ensures Inv(Start(lanes, threads))
  {
    var n := Start(lanes, threads);
    TotalIsZero(Balance, n.activities);
    NonIdleLanesIsZero(n.lanes);
    forall q | 0 <= q < lanes ensures LaneOk(n, q) {
      TotalIsZero(InHand(q), n.activities);
      TotalIsZero(Running(q), n.activities);
    }
  }

  lemma {:induction false} ExecutionKeepsInv(n: System, events: seq<Event>)
    requires Inv(n) && Execution(n, events)
    ensures Inv(End(n, events)) && |End(n, events).lanes| == |n.lanes|
    decreases |events|
  {
    if events != [] {
      NextKeepsInv(n, events[0]);
      ExecutionKeepsInv(Next(n, events[0]), events[1..]);
    }
  }

  // ----- Running and paused queues -----

  /** The step hands out the tasks of queue `q`, if it is running. */
  predicate HandsOut(e: Event, q: nat) {
    (e.AddItem? || e.Submit?) && e.q == q
  }

  predicate Switches(e: Event, q: nat) {
    e.SetRunning? && e.q == q
  }

  predicate AllHandedOut(l: Lane) {
    l.s.running > 0 ==> l.s.toAdd == 0
  }

  lemma StepHandsOut(n: System, e: Event, q: nat)
    requires Inv(n) && Possible(n, e) && q < |n.lanes|
    ensures var r := Next(n, e);
            && |r.lanes| == |n.lanes|
            && (HandsOut(e, q) || (AllHandedOut(n.lanes[q]) && !Switches(e, q)) ==> AllHandedOut(r.lanes[q]))
            && (!Switches(e, q) ==> r.lanes[q].s.running == n.lanes[q].s.running)
            && (!Switches(e, q) && n.lanes[q].s.running <= 0 ==> r.lanes[q].s.pending <= n.lanes[q].s.pending)
  {
    if e.Cleanup? {
      CleanupChecksHold(n, e.q);
    }
  }

  /** Once an item was added to a running queue, or its waiting tasks were submitted, and
      until it is switched, none of its items waits to be submitted; a queue that is paused
      submits nothing. */
  lemma {:induction false} RunningQueueHandsOut(n: System, events: seq<Event>, q: nat)
    requires Inv(n) && Execution(n, events) && q < |n.lanes|
    requires forall k :: 0 <= k < |events| ==> !Switches(events[k], q)
    ensures var r := End(n, events);
            && |r.lanes| == |n.lanes| && r.lanes[q].s.running == n.lanes[q].s.running
            && (AllHandedOut(n.lanes[q]) || (exists k :: 0 <= k < |events| && HandsOut(events[k], q)) ==>
                  AllHandedOut(r.lanes[q]))
            && (n.lanes[q].s.running <= 0 ==> r.lanes[q].s.pending <= n.lanes[q].s.pending)
    decreases |events|
  {
    if events != [] {
      StepHandsOut(n, events[0], q);
      NextKeepsInv(n, events[0]);
      hide Inv, Possible, Next, HandsOut, Switches, AllHandedOut;
      RunningQueueHandsOut(Next(n, events[0]), events[1..], q);
    }
  }

  /** The count of non-idle queues is the sum over the queues of: 1 if it is not idle,
      less the active callbacks owed for it, plus the idle ones. */
  function CountOfLanes(n: System, k: nat): int
    requires k <= |n.lanes|
  {
    if k == 0 then 0 else CountOfLanes(n, k - 1) + NonIdle(n.lanes[k - 1]) + Total(BalanceAt(k - 1), n.activities)
  }

  function BalanceOfLanes(activities: seq<Activity>, k: nat): int {
    if k == 0 then 0 else BalanceOfLanes(activities, k - 1) + Total(BalanceAt(k - 1), activities)
  }

  lemma {:induction false} BalanceOfLanesGrows(activities: seq<Activity>, a: Activity, k: nat)
    ensures BalanceOfLanes(activities + [a], k)
            == BalanceOfLanes(activities, k) + if a.Free? || a.q < k then Of(Balance, a) else 0
  {
    if k > 0 {
      BalanceOfLanesGrows(activities, a, k - 1);
      assert (activities + [a])[..|activities|] == activities;
    }
  }

  lemma {:induction false} BalanceIsByLane(activities: seq<Activity>, lanes: nat)
    requires forall j :: 0 <= j < |activities| ==> ActivityOk(activities[j], lanes)
    ensures BalanceOfLanes(activities, lanes) == Total(Balance, activities)
  {
    if activities == [] {
      NoBalance(lanes);
    } else {
      var last := |activities| - 1;
      BalanceIsByLane(activities[..last], lanes);
      BalanceOfLanesGrows(activities[..last], activities[last], lanes);
      assert activities[..last] + [activities[last]] == activities;
    }
  }

  lemma {:induction false} NoBalance(k: nat)
    ensures BalanceOfLanes([], k) == 0
  {
    if k > 0 {
      NoBalance(k - 1);
    }
  }

  lemma {:induction false} CountSplits(n: System, k: nat)
    requires k <= |n.lanes|
    ensures CountOfLanes(n, k) == NonIdleLanes(n.lanes[..k]) + BalanceOfLanes(n.activities, k)
  {
    if k > 0 {
      CountSplits(n, k - 1);
      assert n.lanes[..k][..k - 1] == n.lanes[..k - 1];
    }
  }

  lemma CountIsByLane(n: System)
    requires Inv(n)
    ensures n.nonIdle == CountOfLanes(n, |n.lanes|)
  {
    CountSplits(n, |n.lanes|);
    assert n.lanes[..|n.lanes|] == n.lanes;
    BalanceIsByLane(n.activities, |n.lanes|);
  }

  /** The accounting over every execution: every interleaving of adding, submitting,
      running and finishing tasks, pausing, resuming and cleaning up. */
  lemma AccountingIsExact(lanes: nat, threads: nat, events: seq<Event>, q: nat)
    requires Execution(Start(lanes, threads), events) && q < lanes
    ensures var n := End(Start(lanes, threads), events);
            && |n.lanes| == lanes
            && |n.lanes[q].s.queue| == n.lanes[q].s.toAdd + Total(InHand(q), n.activities) + n.lanes[q].submitted
            && n.lanes[q].s.pending ==
               Total(InHand(q), n.activities) + n.lanes[q].submitted + Total(Running(q), n.activities)
            && n.nonIdle == CountOfLanes(n, lanes)
  {
    var start := Start(lanes, threads);
    StartSatisfiesInv(lanes, threads);
    ExecutionKeepsInv(start, events);
    CountIsByLane(End(start, events));
    assert LaneOk(End(start, events), q);
  }

  /** When all queues are cleaned up and no callback is owed, the count is back at 0. */
  lemma CountReturnsToZero(n: System)
    requires Inv(n)
    requires forall q :: 0 <= q < |n.lanes| ==> n.lanes[q].s.IsIdle()
    requires forall j :: 0 <= j < |n.activities| ==> !n.activities[j].OwesActive? && !n.activities[j].OwesIdle?
    ensures n.nonIdle == 0
  {
    NonIdleLanesIsZero(n.lanes);
    TotalIsZero(Balance, n.activities);
  }

  // ----- No early quiescence -----

  /** The queues keep running, and an idle queue gets its items only from an executing
      task. */
  predicate KeepsRunning(n: System, e: Event) {
    match e
    case AddItem(_, q, _, owner) => owner.Some? || (q < |n.lanes| && !n.lanes[q].s.IsIdle())
    case SetRunning(_, running) => running
    case Cleanup(_, _) => false
    case _ => true
  }

  /** An active callback is owed by an executing task that is older than every task
      of the queue it concerns, and one call to AddTask comes with it. */
  ghost predicate CallbackOk(n: System, j: nat)
    requires j < |n.activities| && n.activities[j].OwesActive?
  {
    var a := n.activities[j];
    && a.tasks > 0 && a.owner.Some? && IsExecuting(n, a.owner.value)
    && (forall k :: 0 <= k < |n.activities| && n.activities[k].Executing? && n.activities[k].q == a.q ==>
          a.owner.value < n.activities[k].stamp)
    && (forall k :: 0 <= k < |n.activities| && n.activities[k].OwesActive? && n.activities[k].q == a.q ==> k == j)
  }

  ghost predicate RunInv(n: System) {
    && (forall q :: 0 <= q < |n.lanes| ==> n.lanes[q].s.running > 0)
    && (forall k :: 0 <= k < |n.activities| && n.activities[k].Executing? ==> n.activities[k].stamp < n.clock)
    && (forall j :: 0 <= j < |n.activities| && n.activities[j].OwesActive? ==> CallbackOk(n, j))
  }

  /** A run can begin whenever all queues are running, no task has started, and the
      callbacks for the items that are already queued have been made. */
  lemma RunCanBegin(n: System)
    requires forall q :: 0 <= q < |n.lanes| ==> n.lanes[q].s.running > 0
    requires forall j :: 0 <= j < |n.activities| ==> !n.activities[j].OwesActive? && !n.activities[j].Executing?
    ensures RunInv(n)
  {
  }

  /** On an idle queue no task runs and nobody has tasks in hand. */
  lemma IdleLaneHasNoTasks(n: System, q: nat)
    requires Inv(n) && q < |n.lanes| && n.lanes[q].s.IsIdle()
    ensures forall k :: 0 <= k < |n.activities| ==>
      Of(InHand(q), n.activities[k]) == 0 && Of(Running(q), n.activities[k]) == 0
  {
    assert LaneOk(n, q);
    TotalIsNonNegative(InHand(q), n.activities, |n.lanes|);
    TotalIsNonNegative(Running(q), n.activities, |n.lanes|);
    forall k | 0 <= k < |n.activities|
      ensures Of(InHand(q), n.activities[k]) == 0 && Of(Running(q), n.activities[k]) == 0
    {
      TotalBounds(InHand(q), n.activities, k, |n.lanes|);
      TotalBounds(Running(q), n.activities, k, |n.lanes|);
    }
  }

  lemma AddItemKeepsRunInv(n: System, j: nat, q: nat, item: Item, owner: Option<nat>)
    requires Inv(n) && RunInv(n) && Possible(n, AddItem(j, q, item, owner))
    requires owner.Some? || !n.lanes[q].s.IsIdle()
    ensures RunInv(Next(n, AddItem(j, q, item, owner)))
  {
    var r := Next(n, AddItem(j, q, item, owner));
    if n.lanes[q].s.IsIdle() {
      IdleLaneHasNoTasks(n, q);
    }
    assert LaneOk(n, q);
    ExecutingStays(n, r, j);
    forall k | 0 <= k < |r.activities| && r.activities[k].OwesActive? ensures CallbackOk(r, k) {
      if k != j {
        assert CallbackOk(n, k);
        assert Of(InHand(q), n.activities[k]) == if n.activities[k].q == q then n.activities[k].tasks else 0;
      }
    }
  }

  /** Replacing a thread that is not executing leaves every execution in place. */
  lemma ExecutingStays(n: System, r: System, j: nat)
    requires |n.activities| == |r.activities| && j < |n.activities| && !n.activities[j].Executing?
    requires r.activities == n.activities[j := r.activities[j]]
    ensures forall stamp :: IsExecuting(n, stamp) ==> IsExecuting(r, stamp)
  {
    forall stamp | IsExecuting(n, stamp) ensures IsExecuting(r, stamp) {
      var k :| 0 <= k < |n.activities| && n.activities[k].Executing? && n.activities[k].stamp == stamp;
      assert r.activities[k] == n.activities[k];
    }
  }

  lemma FinishTaskKeepsRunInv(n: System, j: nat)
    requires Inv(n) && RunInv(n) && Possible(n, FinishTask(j))
    ensures RunInv(Next(n, FinishTask(j)))
  {
    var r := Next(n, FinishTask(j));
    forall k | 0 <= k < |r.activities| && r.activities[k].OwesActive? ensures CallbackOk(r, k) {
      assert CallbackOk(n, k) && r.activities[k] == n.activities[k];
      var stamp := n.activities[k].owner.value;
      var i :| 0 <= i < |n.activities| && n.activities[i].Executing? && n.activities[i].stamp == stamp;
      assert r.activities[i] == n.activities[i];
    }
  }

  lemma OtherKeepsRunInv(n: System, e: Event)
    requires Inv(n) && RunInv(n) && Possible(n, e) && KeepsRunning(n, e)
    requires e.Submit? || e.Callback? || e.AddTask? || e.StartTask?
    ensures RunInv(Next(n, e))
  {
    var r := Next(n, e);
    ExecutingStays(n, r, e.j);
    forall k | 0 <= k < |r.activities| && r.activities[k].OwesActive? ensures CallbackOk(r, k) {
      assert CallbackOk(n, k) && r.activities[k] == n.activities[k];
    }
  }

  lemma SetRunningKeepsRunInv(n: System, q: nat)
    requires RunInv(n) && Possible(n, SetRunning(q, true))
    ensures RunInv(Next(n, SetRunning(q, true)))
  {
  }

  lemma NextKeepsRunInv(n: System, e: Event)
    requires Inv(n) && RunInv(n) && Possible(n, e) && KeepsRunning(n, e)
    ensures RunInv(Next(n, e))
  {
    match e
    case AddItem(j, q, item, owner) => AddItemKeepsRunInv(n, j, q, item, owner);
    case FinishTask(j) => FinishTaskKeepsRunInv(n, j);
    case SetRunning(q, _) => SetRunningKeepsRunInv(n, q);
    case _ => OtherKeepsRunInv(n, e);
  }

  ghost predicate RunningExecution(n: System, events: seq<Event>)
    decreases |events|
  {
    events == [] || (Possible(n, events[0]) && KeepsRunning(n, events[0])
                     && RunningExecution(Next(n, events[0]), events[1..]))
  }

  lemma {:induction false} RunningIsExecution(n: System, events: seq<Event>)
    requires RunningExecution(n, events)
    ensures Execution(n, events)
    decreases |events|
  {
    if events != [] {
      RunningIsExecution(Next(n, events[0]), events[1..]);
    }
  }

  lemma {:induction false} ExecutionKeepsRunInv(n: System, events: seq<Event>)
    requires Inv(n) && RunInv(n) && RunningExecution(n, events)
    ensures Execution(n, events) && Inv(End(n, events)) && RunInv(End(n, events))
    decreases |events|
  {
    RunningIsExecution(n, events);
    if events != [] {
      NextKeepsInv(n, events[0]);
      NextKeepsRunInv(n, events[0]);
      ExecutionKeepsRunInv(Next(n, events[0]), events[1..]);
    }
  }

  /** A queue whose active callback is owed is not idle. */
  lemma OwedLaneIsNotIdle(n: System, j: nat)
    requires Inv(n) && RunInv(n) && j < |n.activities| && n.activities[j].OwesActive?
    ensures !n.lanes[n.activities[j].q].s.IsIdle()
  {
    var q := n.activities[j].q;
    assert CallbackOk(n, j) && LaneOk(n, q);
    TotalBounds(InHand(q), n.activities, j, |n.lanes|);
    TotalIsNonNegative(Running(q), n.activities, |n.lanes|);
  }

  lemma {:induction false} BalanceAtBound(activities: seq<Activity>, q: nat, j: nat)
    requires forall k :: 0 <= k < |activities| && activities[k].OwesActive? && activities[k].q == q ==> k == j
    ensures Total(BalanceAt(q), activities)
            >= if j < |activities| && activities[j].OwesActive? && activities[j].q == q then -1 else 0
  {
    if activities != [] {
      BalanceAtBound(activities[..|activities| - 1], q, j);
    }
  }

  /** Every queue adds at least 0 to the count, and a queue that is not idle adds at
      least 1 unless its active callback is owed. */
  lemma LaneTerm(n: System, q: nat)
    requires Inv(n) && RunInv(n) && q < |n.lanes|
    ensures NonIdle(n.lanes[q]) + Total(BalanceAt(q), n.activities) >= 0
    ensures (forall j :: 0 <= j < |n.activities| && n.activities[j].OwesActive? ==> n.activities[j].q != q) ==>
              Total(BalanceAt(q), n.activities) >= 0
  {
    if j :| 0 <= j < |n.activities| && n.activities[j].OwesActive? && n.activities[j].q == q {
      assert CallbackOk(n, j);
      OwedLaneIsNotIdle(n, j);
      BalanceAtBound(n.activities, q, j);
    } else {
      BalanceAtBound(n.activities, q, 0);
    }
  }

  lemma {:induction false} CountAtLeast(n: System, k: nat, q: nat)
    requires Inv(n) && RunInv(n) && k <= |n.lanes| && q < |n.lanes|
    ensures CountOfLanes(n, k) >= if q < k then NonIdle(n.lanes[q]) + Total(BalanceAt(q), n.activities) else 0
  {
    if k > 0 {
      CountAtLeast(n, k - 1, q);
      LaneTerm(n, k - 1);
    }
  }

  predicate SomeExecuting(activities: seq<Activity>) {
    exists k :: 0 <= k < |activities| && activities[k].Executing?
  }

  lemma {:induction false} OldestTask(activities: seq<Activity>) returns (k: nat)
    requires SomeExecuting(activities)
    ensures k < |activities| && activities[k].Executing?
    ensures forall i :: 0 <= i < |activities| && activities[i].Executing? ==> activities[k].stamp <= activities[i].stamp
  {
    var last := |activities| - 1;
    if SomeExecuting(activities[..last]) {
      k := OldestTask(activities[..last]);
      if activities[last].Executing? && activities[last].stamp < activities[k].stamp {
        k := last;
      }
    } else {
      k := last;
      assert forall i :: 0 <= i < last ==> activities[i] == activities[..last][i];
    }
  }

  /** Some queue that is not idle has been announced: the one that the oldest task
      runs in, if any task runs at all. */
  lemma AnnouncedLane(n: System, p: nat) returns (q: nat)
    requires Inv(n) && RunInv(n) && p < |n.lanes| && !n.lanes[p].s.IsIdle()
    ensures q < |n.lanes| && !n.lanes[q].s.IsIdle()
    ensures forall j :: 0 <= j < |n.activities| && n.activities[j].OwesActive? ==> n.activities[j].q != q
  {
    forall j | 0 <= j < |n.activities| && n.activities[j].OwesActive? ensures SomeExecuting(n.activities) {
      assert CallbackOk(n, j);
    }
    if SomeExecuting(n.activities) {
      var k := OldestTask(n.activities);
      q := n.activities[k].q;
      forall j | 0 <= j < |n.activities| && n.activities[j].OwesActive? ensures n.activities[j].q != q {
        assert CallbackOk(n, j);
      }
      assert LaneOk(n, q);
      TotalIsNonNegative(InHand(q), n.activities, |n.lanes|);
      TotalBounds(Running(q), n.activities, k, |n.lanes|);
    } else {
      q := p;
    }
  }

  /** In a state of such a run, the count is positive as long as any queue is not idle. */
  lemma NonIdleIsCounted(r: System, p: nat)
    requires Inv(r) && RunInv(r) && p < |r.lanes| && !r.lanes[p].s.IsIdle()
    ensures r.nonIdle >= 1
  {
    var q := AnnouncedLane(r, p);
    CountIsByLane(r);
    LaneTerm(r, q);
    CountAtLeast(r, |r.lanes|, q);
  }

  /** While the queues run and an idle queue gets its items only from executing tasks,
      the count is positive as long as any queue is not idle. */
  lemma NoEarlyQuiescence(n: System, events: seq<Event>, p: nat)
    requires Inv(n) && RunInv(n) && RunningExecution(n, events)
    ensures Execution(n, events)
    ensures p < |End(n, events).lanes| && !End(n, events).lanes[p].s.IsIdle() ==> End(n, events).nonIdle >= 1
  {
    ExecutionKeepsRunInv(n, events);
    var r := End(n, events);
    if p < |r.lanes| && !r.lanes[p].s.IsIdle() {
      NonIdleIsCounted(r, p);
    }
  }

  lemma {:induction false} TotalAtLeast(m: Measure, activities: seq<Activity>, j: nat)
    requires j < |activities| && forall k :: 0 <= k < |activities| ==> Of(m, activities[k]) >= 0
    ensures 0 <= Of(m, activities[j]) <= Total(m, activities)
  {
    var last := |activities| - 1;
    if 0 < last {
      TotalAtLeast(m, activities[..last], if j < last then j else 0);
    }
  }

  lemma ZeroIsQuiescent(r: System)
    requires Inv(r) && RunInv(r)
    ensures r.nonIdle == 0 <==>
            && (forall q :: 0 <= q < |r.lanes| ==> r.lanes[q].s.IsIdle())
            && (forall j :: 0 <= j < |r.activities| ==> !r.activities[j].OwesActive? && !r.activities[j].OwesIdle?)
  {
    forall q | 0 <= q < |r.lanes| && !r.lanes[q].s.IsIdle() ensures r.nonIdle >= 1 {
      NonIdleIsCounted(r, q);
    }
    forall j | 0 <= j < |r.activities| && r.activities[j].OwesActive? ensures !r.lanes[r.activities[j].q].s.IsIdle() {
      OwedLaneIsNotIdle(r, j);
    }
    if forall q :: 0 <= q < |r.lanes| ==> r.lanes[q].s.IsIdle() {
      NonIdleLanesIsZero(r.lanes);
      if j :| 0 <= j < |r.activities| && r.activities[j].OwesIdle? {
        TotalAtLeast(Balance, r.activities, j);
      } else {
        TotalIsZero(Balance, r.activities);
      }
    }
  }

  /** What the count says, exactly, in the same runs: it is 0 if and only if every
      queue is idle and no callback is still owed. */
  lemma ZeroMeansQuiescent(n: System, events: seq<Event>)
    requires Inv(n) && RunInv(n) && RunningExecution(n, events)
    ensures Execution(n, events)
    ensures var r := End(n, events);
            r.nonIdle == 0 <==>
            && (forall q :: 0 <= q < |r.lanes| ==> r.lanes[q].s.IsIdle())
            && (forall j :: 0 <= j < |r.activities| ==> !r.activities[j].OwesActive? && !r.activities[j].OwesIdle?)
  {
    ExecutionKeepsRunInv(n, events);
    ZeroIsQuiescent(End(n, events));
  }

  /** Nothing less will do. An item keeps the invariant of such runs exactly if it comes
      from an executing task or finds its queue busy; any other item leaves the count
      as it was, with one more queue that is not idle. */
  lemma OtherItemsAreNotCounted(n: System, j: nat, q: nat, item: Item, owner: Option<nat>)
    requires Inv(n) && RunInv(n) && Possible(n, AddItem(j, q, item, owner))
    ensures var r := Next(n, AddItem(j, q, item, owner));
            && (RunInv(r) <==> owner.Some? || !n.lanes[q].s.IsIdle())
            && r.nonIdle == n.nonIdle && !r.lanes[q].s.IsIdle()
  {
    var r := Next(n, AddItem(j, q, item, owner));
    if owner.Some? || !n.lanes[q].s.IsIdle() {
      AddItemKeepsRunInv(n, j, q, item, owner);
    } else {
      assert r.activities[j].OwesActive? && !CallbackOk(r, j);
    }
  }

  /** Where the count says 0, no task is left to add an item, and every item that is
      added makes the count wrong: it stays 0 with a queue that is not idle. */
  lemma AddingAtZeroGoesUnnoticed(n: System, j: nat, q: nat, item: Item, owner: Option<nat>)
    requires Inv(n) && RunInv(n) && n.nonIdle == 0 && Possible(n, AddItem(j, q, item, owner))
    ensures owner.None?
    ensures var r := Next(n, AddItem(j, q, item, owner)); r.nonIdle == 0 && !r.lanes[q].s.IsIdle()
  {
    forall k | 0 <= k < |n.activities| && n.activities[k].Executing? ensures !n.lanes[n.activities[k].q].s.IsIdle() {
      assert LaneOk(n, n.activities[k].q);
      TotalIsNonNegative(InHand(n.activities[k].q), n.activities, |n.lanes|);
      TotalBounds(Running(n.activities[k].q), n.activities, k, |n.lanes|);
    }
    ZeroIsQuiescent(n);
  }

  // ----- Early quiescence -----

  lemma {:induction false} ExecutionSnoc(n: System, events: seq<Event>, e: Event)
    requires Execution(n, events) && Possible(End(n, events), e)
    ensures Execution(n, events + [e]) && End(n, events + [e]) == Next(End(n, events), e)
    decreases |events|
  {
    if events == [] {
      assert [e][1..] == [];
    } else {
      ExecutionSnoc(Next(n, events[0]), events[1..], e);
      assert (events + [e])[1..] == events[1..] + [e];
    }
  }

  const ANY_ITEM := Item(false, false, 0, 0, 0)

  /** One queue and two threads, of which the first has added an item. */
  function ItemAdded(s: QueueState, submitted: int, tasks: int, other: Activity, nonIdle: int, clock: nat): System {
    System([Lane(s, submitted)], [OwesActive(0, tasks, None), other], nonIdle, clock)
  }

  lemma FirstItem(running: bool)
    ensures var first := if running then [SetRunning(0, true)] else [];
            var events := first + [AddItem(0, 0, ANY_ITEM, None)];
            && Execution(Start(1, 2), events)
            && End(Start(1, 2), events) ==
                 (if running then ItemAdded(QueueState([ANY_ITEM], 0, 1, 1), 0, 1, Free, 0, 0)
                  else ItemAdded(QueueState([ANY_ITEM], 1, 0, 0), 0, 0, Free, 0, 0))
  {
    var e := AddItem(0, 0, ANY_ITEM, None);
    var first := if running then [SetRunning(0, true)] else [];
    assert [] + [ANY_ITEM] == [ANY_ITEM] && [] + [SetRunning(0, true)] == [SetRunning(0, true)];
    if running {
      ExecutionSnoc(Start(1, 2), [], SetRunning(0, true));
    }
    var m := End(Start(1, 2), first);
    assert m.lanes == [Lane(QueueState([], 0, 0, if running then 1 else 0), 0)] && m.activities == [Free, Free];
    ExecutionSnoc(Start(1, 2), first, e);
    var n := Next(m, e);
    assert n.activities == [OwesActive(0, if running then 1 else 0, None), Free];
  }

  lemma FirstItemRuns() returns (events: seq<Event>)
    ensures Execution(Start(1, 2), events)
    ensures End(Start(1, 2), events) == ItemAdded(QueueState([], 0, 1, 1), 0, 0, Executing(0, 0), 0, 1)
  {
    var start := Start(1, 2);
    FirstItem(false);
    events := [] + [AddItem(0, 0, ANY_ITEM, None)];
    ExecutionSnoc(start, events, SetRunning(0, true));
    events := events + [SetRunning(0, true)];
    assert End(start, events) == ItemAdded(QueueState([ANY_ITEM], 1, 0, 1), 0, 0, Free, 0, 0);
    ExecutionSnoc(start, events, Submit(1, 0));
    events := events + [Submit(1, 0)];
    assert End(start, events) == ItemAdded(QueueState([ANY_ITEM], 0, 1, 1), 0, 0, OwesTasks(0, 1, None), 0, 0);
    ExecutionSnoc(start, events, AddTask(1));
    events := events + [AddTask(1)];
    assert End(start, events) == ItemAdded(QueueState([ANY_ITEM], 0, 1, 1), 1, 0, Free, 0, 0);
    ExecutionSnoc(start, events, StartTask(1, 0));
    events := events + [StartTask(1, 0)];
    assert [ANY_ITEM][..0] + [ANY_ITEM][1..] == [];
  }

  /** An item added while its queue is paused can be submitted and run by others before
      its adder's active callback: the count is then 0 under a running task, and goes
      below 0 when that task finishes. */
  lemma PausedQueueQuiescesEarly() returns (events: seq<Event>)
    ensures Execution(Start(1, 2), events)
    ensures End(Start(1, 2), events) == ItemAdded(QueueState([], 0, 1, 1), 0, 0, Executing(0, 0), 0, 1)
    ensures Execution(Start(1, 2), events + [FinishTask(1)] + [Callback(1)])
    ensures End(Start(1, 2), events + [FinishTask(1)] + [Callback(1)]).nonIdle == -1
  {
    events := FirstItemRuns();
    var start := Start(1, 2);
    hide Start;
    ExecutionSnoc(start, events, FinishTask(1));
    assert End(start, events + [FinishTask(1)]) == ItemAdded(QueueState([], 0, 0, 1), 0, 0, OwesIdle(0), 0, 1);
    ExecutionSnoc(start, events + [FinishTask(1)], Callback(1));
  }

  lemma SecondItem()
    ensures var n := ItemAdded(QueueState([ANY_ITEM], 0, 1, 1), 0, 1, Free, 0, 0);
            && Possible(n, AddItem(1, 0, ANY_ITEM, None))
            && Next(n, AddItem(1, 0, ANY_ITEM, None))
                 == ItemAdded(QueueState([ANY_ITEM, ANY_ITEM], 0, 2, 1), 0, 1, OwesTasks(0, 1, None), 0, 0)
  {
    assert [ANY_ITEM] + [ANY_ITEM] == [ANY_ITEM, ANY_ITEM];
  }

  lemma SecondTask()
    ensures var n := ItemAdded(QueueState([ANY_ITEM, ANY_ITEM], 0, 2, 1), 0, 1, OwesTasks(0, 1, None), 0, 0);
            && Possible(n, AddTask(1))
            && Next(n, AddTask(1)) == ItemAdded(QueueState([ANY_ITEM, ANY_ITEM], 0, 2, 1), 1, 1, Free, 0, 0)
  {
  }

  lemma SecondStarts()
    ensures var n := ItemAdded(QueueState([ANY_ITEM, ANY_ITEM], 0, 2, 1), 1, 1, Free, 0, 0);
            && Possible(n, StartTask(1, 0))
            && Next(n, StartTask(1, 0)) == ItemAdded(QueueState([ANY_ITEM], 0, 2, 1), 0, 1, Executing(0, 0), 0, 1)
  {
    TakingFromTwo();
    hide Taking;
  }

  /** Nor need the queue ever be paused: two threads that are not tasks add items to it,
      and an item runs before the first one's active callback. */
  lemma RunningQueueQuiescesEarly()
    ensures var events := [SetRunning(0, true)] + [AddItem(0, 0, ANY_ITEM, None)] + [AddItem(1, 0, ANY_ITEM, None)]
                          + [AddTask(1)] + [StartTask(1, 0)];
            && Execution(Start(1, 2), events)
            && End(Start(1, 2), events) == ItemAdded(QueueState([ANY_ITEM], 0, 2, 1), 0, 1, Executing(0, 0), 0, 1)
  {
    FirstItem(true);
    SecondItem();
    SecondTask();
    SecondStarts();
    hide Next, Possible;
    var events := [SetRunning(0, true)] + [AddItem(0, 0, ANY_ITEM, None)];
    ExecutionSnoc(Start(1, 2), events, AddItem(1, 0, ANY_ITEM, None));
    events := events + [AddItem(1, 0, ANY_ITEM, None)];
    ExecutionSnoc(Start(1, 2), events, AddTask(1));
    events := events + [AddTask(1)];
    ExecutionSnoc(Start(1, 2), events, StartTask(1, 0));
  }

  lemma TakingFromTwo()
    ensures Taking(QueueState([ANY_ITEM, ANY_ITEM], 0, 2, 1)).0 == QueueState([ANY_ITEM], 0, 2, 1)
  {
    var queue := [ANY_ITEM, ANY_ITEM];
    assert TopIndex(queue, 1) == 0 && TopIndex(queue, 2) == 0;
    assert queue[..0] + queue[1..] == [ANY_ITEM];
  }

  const NO_ITEMS := QueueState([], 0, 0, 0)

  /** Two queues and three threads. */
  function TwoQueues(s: QueueState, submitted: int, other: QueueState, otherSubmitted: int, a: Activity, b: Activity,
          c: Activity, nonIdle: int, clock: nat): System {
    System([Lane(s, submitted), Lane(other, otherSubmitted)], [a, b, c], nonIdle, clock)
  }

  /** The first queue runs, and gets an item. */
  lemma FirstOfTwo()
    ensures var start := Start(2, 3);
            && Possible(start, SetRunning(0, true)) && Next(start, SetRunning(0, true))
               == TwoQueues(QueueState([], 0, 0, 1), 0, NO_ITEMS, 0, Free, Free, Free, 0, 0)
    ensures var n := TwoQueues(QueueState([], 0, 0, 1), 0, NO_ITEMS, 0, Free, Free, Free, 0, 0);
            && Possible(n, AddItem(0, 0, ANY_ITEM, None)) && Next(n, AddItem(0, 0, ANY_ITEM, None))
               == TwoQueues(QueueState([ANY_ITEM], 0, 1, 1), 0, NO_ITEMS, 0, OwesActive(0, 1, None), Free, Free, 0, 0)
  {
    assert Start(2, 3) == TwoQueues(NO_ITEMS, 0, NO_ITEMS, 0, Free, Free, Free, 0, 0);
    assert [] + [ANY_ITEM] == [ANY_ITEM];
  }

  /** The queue is counted, and its task is submitted. */
  lemma FirstIsCounted()
    ensures var s := QueueState([ANY_ITEM], 0, 1, 1);
            var n := TwoQueues(s, 0, NO_ITEMS, 0, OwesActive(0, 1, None), Free, Free, 0, 0);
            var m := TwoQueues(s, 0, NO_ITEMS, 0, OwesTasks(0, 1, None), Free, Free, 1, 0);
            && Possible(n, Callback(0)) && Next(n, Callback(0)) == m
            && Possible(m, AddTask(0))
            && Next(m, AddTask(0)) == TwoQueues(QueueState([ANY_ITEM], 0, 1, 1), 1, NO_ITEMS, 0, Free, Free, Free, 1, 0)
  {
  }

  lemma FirstIsRun()
    ensures var n := TwoQueues(QueueState([ANY_ITEM], 0, 1, 1), 1, NO_ITEMS, 0, Free, Free, Free, 1, 0);
            && Possible(n, StartTask(0, 0))
            && Next(n, StartTask(0, 0)) == OneRuns(NO_ITEMS, 0, Free, Free, 1, 1)
  {
    assert [ANY_ITEM][..0] + [ANY_ITEM][1..] == [];
  }

  /** A task of the first queue runs in the first thread. */
  function OneRuns(other: QueueState, submitted: int, b: Activity, c: Activity, nonIdle: int, clock: nat): System {
    TwoQueues(QueueState([], 0, 1, 1), 0, other, submitted, Executing(0, 0), b, c, nonIdle, clock)
  }

  /** The task adds an item to the second queue, which is paused; then the queue resumes. */
  lemma ItemToPaused()
    ensures var n, m := OneRuns(NO_ITEMS, 0, Free, Free, 1, 1),
                        OneRuns(QueueState([ANY_ITEM], 1, 0, 0), 0, OwesActive(1, 0, Some(0)), Free, 1, 1);
            && Possible(n, AddItem(1, 1, ANY_ITEM, Some(0))) && Next(n, AddItem(1, 1, ANY_ITEM, Some(0))) == m
            && Possible(m, SetRunning(1, true))
            && Next(m, SetRunning(1, true)) ==
               OneRuns(QueueState([ANY_ITEM], 1, 0, 1), 0, OwesActive(1, 0, Some(0)), Free, 1, 1)
  {
    var n := OneRuns(NO_ITEMS, 0, Free, Free, 1, 1);
    assert n.activities[0] == Executing(0, 0);
    assert IsExecuting(n, 0);
    assert [] + [ANY_ITEM] == [ANY_ITEM];
  }

  /** The thread that resumed the queue submits its waiting task. */
  lemma WaitingIsSubmitted()
    ensures var n := OneRuns(QueueState([ANY_ITEM], 1, 0, 1), 0, OwesActive(1, 0, Some(0)), Free, 1, 1);
            var s := QueueState([ANY_ITEM], 0, 1, 1);
            var m := OneRuns(s, 0, OwesActive(1, 0, Some(0)), OwesTasks(1, 1, None), 1, 1);
            && Possible(n, Submit(2, 1)) && Next(n, Submit(2, 1)) == m
            && Possible(m, AddTask(2))
            && Next(m, AddTask(2)) == OneRuns(QueueState([ANY_ITEM], 0, 1, 1), 1, OwesActive(1, 0, Some(0)), Free, 1, 1)
  {
  }

  lemma WaitingIsRun()
    ensures var n := OneRuns(QueueState([ANY_ITEM], 0, 1, 1), 1, OwesActive(1, 0, Some(0)), Free, 1, 1);
            && Possible(n, StartTask(2, 1))
            && Next(n, StartTask(2, 1)) ==
               OneRuns(QueueState([], 0, 1, 1), 0, OwesActive(1, 0, Some(0)), Executing(1, 1), 1, 2)
  {
    assert [ANY_ITEM][..0] + [ANY_ITEM][1..] == [];
  }

  /** Its idle callback comes before the active one that is still owed. */
  lemma SecondBecomesIdle()
    ensures var n, m := OneRuns(QueueState([], 0, 1, 1), 0, OwesActive(1, 0, Some(0)), Executing(1, 1), 1, 2),
                        OneRuns(QueueState([], 0, 0, 1), 0, OwesActive(1, 0, Some(0)), OwesIdle(1), 1, 2);
            && Possible(n, FinishTask(2)) && Next(n, FinishTask(2)) == m
            && Possible(m, Callback(2))
            && Next(m, Callback(2)) == OneRuns(QueueState([], 0, 0, 1), 0, OwesActive(1, 0, Some(0)), Free, 0, 2)
  {
  }

  /** The items are added by a task, but for the first. */
  predicate TasksAdd(events: seq<Event>) {
    forall k :: 0 <= k < |events| && events[k].AddItem? ==> events[k].owner.Some? || k == 1
  }

  lemma TaskRuns() returns (events: seq<Event>)
    ensures Execution(Start(2, 3), events) && End(Start(2, 3), events) == OneRuns(NO_ITEMS, 0, Free, Free, 1, 1)
    ensures |events| == 5 && TasksAdd(events)
  {
    FirstOfTwo();
    FirstIsCounted();
    FirstIsRun();
    hide Possible, Next, Start, TwoQueues, OneRuns;
    events := [];
    ExecutionSnoc(Start(2, 3), events, SetRunning(0, true));
    events := events + [SetRunning(0, true)];
    ExecutionSnoc(Start(2, 3), events, AddItem(0, 0, ANY_ITEM, None));
    events := events + [AddItem(0, 0, ANY_ITEM, None)];
    ExecutionSnoc(Start(2, 3), events, Callback(0));
    events := events + [Callback(0)];
    ExecutionSnoc(Start(2, 3), events, AddTask(0));
    events := events + [AddTask(0)];
    ExecutionSnoc(Start(2, 3), events, StartTask(0, 0));
    events := events + [StartTask(0, 0)];
  }

  /** Executing tasks do not help while a queue is paused: the task that adds an item to
      it owes the active callback until others have run that item, and the count is 0
      under the first task. */
  lemma PausingQuiescesEarly() returns (events: seq<Event>)
    ensures Execution(Start(2, 3), events) && TasksAdd(events)
    ensures End(Start(2, 3), events) == OneRuns(QueueState([], 0, 0, 1), 0, OwesActive(1, 0, Some(0)), Free, 0, 2)
  {
    ItemToPaused();
    WaitingIsSubmitted();
    WaitingIsRun();
    SecondBecomesIdle();
    hide Possible, Next, Start, TwoQueues, OneRuns, Execution, End;
    events := TaskRuns();
    ExecutionSnoc(Start(2, 3), events, AddItem(1, 1, ANY_ITEM, Some(0)));
    events := events + [AddItem(1, 1, ANY_ITEM, Some(0))];
    ExecutionSnoc(Start(2, 3), events, SetRunning(1, true));
    events := events + [SetRunning(1, true)];
    ExecutionSnoc(Start(2, 3), events, Submit(2, 1));
    events := events + [Submit(2, 1)];
    ExecutionSnoc(Start(2, 3), events, AddTask(2));
    events := events + [AddTask(2)];
    ExecutionSnoc(Start(2, 3), events, StartTask(2, 1));
    events := events + [StartTask(2, 1)];
    ExecutionSnoc(Start(2, 3), events, FinishTask(2));
    events := events + [FinishTask(2)];
    ExecutionSnoc(Start(2, 3), events, Callback(2));
    events := events + [Callback(2)];
  }
}
