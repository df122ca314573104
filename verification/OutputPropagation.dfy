/** Parallel invocations of one node: they end in any order, and their outputs are
    propagated in the order of their input timestamps, by one thread at a time. */
module OutputPropagation {
  import opened Timestamps

  datatype PropagationState = Idle | PropagatingPackets | PropagatingBound | PropagationPending

  /** The fields that timestamp_mutex_ guards, and the timestamps of the contexts in use,
      which are the keys of `active` in Invocations. */
  datatype HandlerState = HandlerState(
    active: set<Timestamp>,
    completed: set<Timestamp>,
    state: PropagationState,
    taskBound: Timestamp)

  /** What a thread does next, without the lock: nothing, as it leaves the loop, or
      propagating the outputs of one invocation, or propagating a bound. */
  datatype Work = Leave | Packets(t: Timestamp) | Bound(bound: Timestamp)

  predicate IsLeast(t: Timestamp, s: set<Timestamp>) {
    t in s && forall u :: u in s ==> t <= u
  }

  lemma {:induction false} LeastExists(s: set<Timestamp>)
    requires s != {}
    ensures exists t :: IsLeast(t, s)
    decreases |s|
  {
    var u :| u in s;
    var rest := s - {u};
    assert s == rest + {u};
    if rest == {} {
      assert IsLeast(u, s);
    } else {
      LeastExists(rest);
      var v :| IsLeast(v, rest);
      assert IsLeast(Min(u, v), s);
    }
  }

  /** The first element of an ordered container. */
  function Least(s: set<Timestamp>): (t: Timestamp)
    requires s != {}
    ensures IsLeast(t, s)
  {
    LeastExists(s);
    var t :| IsLeast(t, s);
    t
  }

  /** The first completed invocation is that of the first context in use. */
  predicate FrontIsCompleted(h: HandlerState)
    requires h.active != {}
  {
    h.completed != {} && Least(h.active) == Least(h.completed)
  }

  /** PropagationLoop, up to where it gives up the lock or returns. */
  function Starting(h: HandlerState): (HandlerState, Work) {
    if h.active == {} then (h.(state := PropagatingBound), Bound(h.taskBound))
    else if FrontIsCompleted(h) then (h.(state := PropagatingPackets), Packets(Least(h.active)))
    else (h, Leave)
  }

  /** What follows a change: another thread that propagates is told if it would miss it. */
  function Changed(h: HandlerState): (HandlerState, Work) {
    match h.state
    case Idle => Starting(h)
    case PropagatingBound => (h.(state := PropagationPending), Leave)
    case _ => (h, Leave)
  }

  function Posting(h: HandlerState, t: Timestamp): (HandlerState, Work) {
    Changed(h.(completed := h.completed + {t}))
  }

  function Bounding(h: HandlerState, bound: Timestamp): (HandlerState, Work) {
    if h.taskBound == bound then (h, Leave) else Changed(h.(taskBound := bound))
  }

  /** The section after the outputs of `t` are propagated and its context is recycled. */
  function AfterPackets(h: HandlerState, t: Timestamp): (HandlerState, Work)
    requires h.completed != {} && (h.completed != {Least(h.completed)} ==> h.active != {})
  {
    var r := h.(completed := h.completed - {Least(h.completed)});
    if r.completed == {} && r.active == {} then
      if r.taskBound <= NextAllowedInStream(t) then (r.(state := Idle), Leave)
      else (r.(state := PropagatingBound), Bound(r.taskBound))
    else if FrontIsCompleted(r) then (r, Packets(Least(r.active)))
    else (r.(state := Idle), Leave)
  }

  /** The section after a bound is propagated. */
  function AfterBound(h: HandlerState): (HandlerState, Work) {
    if h.state.PropagatingBound? then (h.(state := Idle), Leave)
    else if h.active == {} then (h.(state := PropagatingBound), Bound(h.taskBound))
    else if FrontIsCompleted(h) then (h.(state := PropagatingPackets), Packets(Least(h.active)))
    else (h.(state := Idle), Leave)
  }

  class InOrderOutputStreamHandler {
    var activeContexts: set<Timestamp>
    var completedInputTimestamps: set<Timestamp>
    var propagationState: PropagationState
    var taskTimestampBound: Timestamp

    ghost function State(): HandlerState
      reads this
    {
      HandlerState(activeContexts, completedInputTimestamps, propagationState, taskTimestampBound)
    }

    method PrepareForRun()
      modifies this
      ensures State() == HandlerState(old(activeContexts), {}, Idle, UNSET)
    {
      completedInputTimestamps, taskTimestampBound, propagationState := {}, UNSET, Idle;
    }

    /** The section of PostProcess, as far as the lock is held. */
    method PostProcess(t: Timestamp) returns (work: Work)
      modifies this
      ensures (State(), work) == Posting(old(State()), t)
    {
      completedInputTimestamps := completedInputTimestamps + {t};
      if propagationState == PropagatingBound {
        propagationState := PropagationPending;
        return Leave;
      }
      if propagationState != Idle {
        return Leave;
      }
      work := StartLoop();
    }

    /** The source CHECKs that a new bound is greater than the last one. */
    method UpdateTaskTimestampBound(bound: Timestamp) returns (work: Work)
      requires bound >= taskTimestampBound
      modifies this
      ensures (State(), work) == Bounding(old(State()), bound)
    {
      if taskTimestampBound == bound {
        return Leave;
      }
      taskTimestampBound := bound;
      if propagationState == PropagatingBound {
        propagationState := PropagationPending;
        return Leave;
      }
      if propagationState != Idle {
        return Leave;
      }
      work := StartLoop();
    }

    method StartLoop() returns (work: Work)
      requires propagationState == Idle
      modifies `propagationState
      ensures (State(), work) == Starting(old(State()))
    {
      if activeContexts == {} {
        propagationState := PropagatingBound;
        return Bound(taskTimestampBound);
      }
      if completedInputTimestamps != {} && Least(activeContexts) == Least(completedInputTimestamps) {
        propagationState := PropagatingPackets;
        return Packets(Least(activeContexts));
      }
      return Leave;
    }

    /** The end of PropagatePackets. */
    method FinishPackets(t: Timestamp) returns (work: Work)
      requires propagationState == PropagatingPackets && completedInputTimestamps != {}
      requires completedInputTimestamps != {Least(completedInputTimestamps)} ==> activeContexts != {}
      modifies this
      ensures (State(), work) == AfterPackets(old(State()), t)
    {
      completedInputTimestamps := completedInputTimestamps - {Least(completedInputTimestamps)};
      if completedInputTimestamps == {} && activeContexts == {} {
        if taskTimestampBound <= NextAllowedInStream(t) {
          propagationState := Idle;
          return Leave;
        }
        propagationState := PropagatingBound;
        return Bound(taskTimestampBound);
      }
      if completedInputTimestamps != {} && Least(activeContexts) == Least(completedInputTimestamps) {
        return Packets(Least(activeContexts));
      }
      propagationState := Idle;
      return Leave;
    }

    /** The end of PropagationBound. */
    method FinishBound(bound: Timestamp) returns (work: Work)
      requires propagationState == PropagatingBound || propagationState == PropagationPending
      requires propagationState == PropagationPending && activeContexts == {} ==> bound < taskTimestampBound
      modifies this
      ensures (State(), work) == AfterBound(old(State()))
    {
      if propagationState == PropagatingBound {
        propagationState := Idle;
        return Leave;
      }
      if activeContexts == {} {
        propagationState := PropagatingBound;
        return Bound(taskTimestampBound);
      }
      if completedInputTimestamps == {} || Least(activeContexts) != Least(completedInputTimestamps) {
        propagationState := Idle;
        return Leave;
      }
      propagationState := PropagatingPackets;
      return Packets(Least(activeContexts));
    }
  }

  // ----- All threads of one node -----

  /** Where the propagation thread is, if there is one: it calls the output streams,
      recycles a context, or waits for the lock. */
  datatype Place =
    | Nobody
    | Sending(t: Timestamp)
    | Recycling(t: Timestamp)
    | Relocking(t: Timestamp)
    | SendingBound(bound: Timestamp)
    | RelockingBound(bound: Timestamp)

  /** Who it is: a task in PostProcess, or the scheduling thread in UpdateTaskTimestampBound. */
  datatype Owner = Task | Scheduler

  /** `prepared` are the timestamps of all contexts ever prepared, `running` those whose
      invocation has not come to PostProcess; `posted` counts tasks that have, and have
      not ended. `sent` are the invocations whose outputs were propagated, in that order,
      and `sentBound` is the last bound propagated. */
  datatype System = System(
    h: HandlerState,
    at: Place,
    owner: Owner,
    prepared: seq<Timestamp>,
    running: set<Timestamp>,
    posted: nat,
    sent: seq<Timestamp>,
    sentBound: Timestamp,
    aborted: bool)

  datatype Event =
    | Prepare(t: Timestamp)
    | Post(t: Timestamp)
    | UpdateBound(bound: Timestamp)
    | Advance
    | EndTask

  /** The propagation thread is a task. */
  predicate TaskPropagates(n: System) {
    !n.at.Nobody? && n.owner.Task?
  }

  predicate SchedulerPropagates(n: System) {
    !n.at.Nobody? && n.owner.Scheduler?
  }

  /** One thread at a time schedules the node, in the order of the input sets. */
  predicate Possible(n: System, e: Event) {
    match e
    case Prepare(t) => !SchedulerPropagates(n) && (n.prepared != [] ==> n.prepared[|n.prepared| - 1] < t)
    case Post(t) => t in n.running
    case UpdateBound(bound) => !SchedulerPropagates(n) && n.h.taskBound <= bound
    case Advance => !n.at.Nobody?
    case EndTask => n.posted > if TaskPropagates(n) then 1 else 0
  }

  /** The CHECKs of the sections that a step enters. */
  predicate ChecksHold(n: System, e: Event) {
    match e
    case Post(t) => StartCheckHolds(n.h.(completed := n.h.completed + {t}))
    case UpdateBound(_) => StartCheckHolds(n.h)
    case Prepare(t) => t !in n.h.active
    case EndTask => true
    case Advance =>
      match n.at
      case Recycling(t) => IsLeast(t, n.h.active)
      case Relocking(t) => IsLeast(t, n.h.completed) && (n.h.completed != {t} ==> n.h.active != {})
      case RelockingBound(bound) =>
        n.h.state.PropagatingBound? || (n.h.state.PropagationPending? && (n.h.active == {} ==> bound < n.h.taskBound))
      case _ => true
  }

  /** Should the loop start: the first context in use is not after the first completed one. */
  predicate StartCheckHolds(h: HandlerState) {
    h.state.Idle? && h.active != {} && h.completed != {} ==> Least(h.active) <= Least(h.completed)
  }

  function Goes(n: System, r: (HandlerState, Work), owner: Owner): System {
    match r.1
    case Leave => n.(h := r.0)
    case Packets(t) => n.(h := r.0, at := Sending(t), owner := owner)
    case Bound(bound) => n.(h := r.0, at := SendingBound(bound), owner := owner)
  }

  function Next(n: System, e: Event): System
    requires Possible(n, e)
  {
    if !ChecksHold(n, e) then n.(aborted := true)
    else
      match e
      case Prepare(t) =>
        n.(h := n.h.(active := n.h.active + {t}), prepared := n.prepared + [t], running := n.running + {t})
      case Post(t) => Goes(n.(running := n.running - {t}, posted := n.posted + 1), Posting(n.h, t), Task)
      case UpdateBound(bound) => Goes(n, Bounding(n.h, bound), Scheduler)
      case EndTask => n.(posted := n.posted - 1)
      case Advance =>
        match n.at
        case Sending(t) => n.(sent := n.sent + [t], at := Recycling(t))
        case Recycling(t) => n.(h := n.h.(active := n.h.active - {Least(n.h.active)}), at := Relocking(t))
        case Relocking(t) => Goes(n.(at := Nobody), AfterPackets(n.h, t), n.owner)
        case SendingBound(bound) => n.(sentBound := bound, at := RelockingBound(bound))
        case RelockingBound(_) => Goes(n.(at := Nobody), AfterBound(n.h), n.owner)
  }

  // ----- The invariant -----

  ghost predicate Increasing(s: seq<Timestamp>) {
    forall j, k :: 0 <= j < k < |s| ==> s[j] < s[k]
  }

  /** The elements of the set in their order. */
  ghost predicate Lists(rest: seq<Timestamp>, s: set<Timestamp>) {
    Increasing(rest) && forall t :: t in s <==> t in rest
  }

  /** How many contexts were recycled: one for each invocation sent, but for the one
      whose context is about to be. */
  function Recycled(n: System): int {
    |n.sent| - if n.at.Recycling? then 1 else 0
  }

  /** The timestamps of the contexts in use, first to last. */
  function Rest(n: System): seq<Timestamp>
    requires 0 <= Recycled(n) <= |n.prepared|
  {
    n.prepared[Recycled(n)..]
  }

  ghost predicate OrderInv(n: System) {
    && !n.aborted && n.sent <= n.prepared && 0 <= Recycled(n)
    && Increasing(n.prepared) && Lists(Rest(n), n.h.active)
  }

  /** Every context in use is that of an invocation that runs or that is completed. */
  predicate ContextsInv(n: System) {
    && n.running !! n.h.completed
    && n.running + n.h.completed == n.h.active + (if n.at.Relocking? then {n.at.t} else {})
    && (TaskPropagates(n) ==> n.posted > 0)
  }

  /** The next invocation to propagate is not completed. */
  predicate FrontRuns(n: System) {
    |n.sent| < |n.prepared| ==> n.prepared[|n.sent|] !in n.h.completed
  }

  /** The bound was propagated, or is implied by what was sent last. */
  predicate BoundIsSent(n: System) {
    n.h.taskBound <= n.sentBound || (n.sent != [] && n.h.taskBound <= NextAllowedInStream(n.sent[|n.sent| - 1]))
  }

  /** The last invocation sent, which stays completed for the time being. */
  predicate IsLastSent(n: System, t: Timestamp) {
    n.sent != [] && n.sent[|n.sent| - 1] == t && t in n.h.completed && t !in n.running
  }

  predicate PlaceInv(n: System) {
    match n.at
    case Nobody => n.h.state.Idle? && FrontRuns(n) && (|n.sent| == |n.prepared| ==> BoundIsSent(n))
    case Sending(t) =>
      n.h.state.PropagatingPackets? && |n.sent| < |n.prepared| && n.prepared[|n.sent|] == t && t in n.h.completed
    case Recycling(t) => n.h.state.PropagatingPackets? && IsLastSent(n, t)
    case Relocking(t) => n.h.state.PropagatingPackets? && IsLastSent(n, t)
    case SendingBound(bound) => BoundInv(n.h, bound)
    case RelockingBound(bound) => BoundInv(n.h, bound) && n.sentBound == bound
  }

  /** While a bound is propagated, a change makes the state pending. */
  predicate BoundInv(h: HandlerState, bound: Timestamp) {
    && bound <= h.taskBound
    && if h.completed == {} && bound == h.taskBound then h.state.PropagatingBound? else h.state.PropagationPending?
  }

  ghost predicate Inv(n: System) {
    OrderInv(n) && ContextsInv(n) && |n.sent| <= |n.prepared| && PlaceInv(n)
  }

  function Start(): System {
    System(HandlerState({}, {}, Idle, UNSET), Nobody, Task, [], {}, 0, [], UNSET, false)
  }

  lemma StartSatisfiesInv()
    ensures Inv(Start())
  {
    assert Lists([], {});
    hide Lists;
    assert Rest(Start()) == [];
  }

  // ----- What every step keeps -----

  lemma ListsFront(rest: seq<Timestamp>, s: set<Timestamp>)
    requires Lists(rest, s)
    ensures s == {} <==> rest == []
    ensures rest != [] ==> Least(s) == rest[0]
  {
    if rest != [] {
      assert rest[0] in s;
      assert IsLeast(rest[0], s);
    } else {
      assert forall t :: t !in s;
    }
  }

  lemma ListsTail(rest: seq<Timestamp>, s: set<Timestamp>)
    requires Lists(rest, s) && rest != []
    ensures Lists(rest[1..], s - {rest[0]}) && forall u :: u in s - {rest[0]} ==> rest[0] < u
  {
    assert forall u :: u in rest <==> u == rest[0] || u in rest[1..];
  }

  lemma ListsSnoc(rest: seq<Timestamp>, s: set<Timestamp>, t: Timestamp)
    requires Lists(rest, s) && (forall u :: u in s ==> u < t)
    ensures Lists(rest + [t], s + {t})
  {
    assert forall k :: 0 <= k < |rest| ==> rest[k] in s;
  }

  /** What the first elements of the two containers say of the order of preparation. */
  lemma FrontIs(h: HandlerState, rest: seq<Timestamp>)
    requires Lists(rest, h.active) && h.completed <= h.active
    ensures h.active == {} <==> rest == []
    ensures rest != [] ==> Least(h.active) == rest[0] && (FrontIsCompleted(h) <==> rest[0] in h.completed)
    ensures h.active != {} && h.completed != {} ==> Least(h.active) <= Least(h.completed)
  {
    ListsFront(rest, h.active);
    hide Lists;
    if h.completed != {} {
      assert Least(h.completed) in h.active;
    }
  }

  /** What a thread that has the lock leaves behind: the loop is idle only if the front
      still runs; otherwise the thread takes the front or the bound along. */
  predicate Settles(h: HandlerState, rest: seq<Timestamp>, r: HandlerState, work: Work) {
    && r.active == h.active && r.completed == h.completed && r.taskBound == h.taskBound
    && match work
       case Leave => r.state.Idle? && (rest != [] ==> rest[0] !in h.completed)
       case Packets(t) => r.state.PropagatingPackets? && rest != [] && rest[0] == t && t in h.completed
       case Bound(bound) => r.state.PropagatingBound? && bound == h.taskBound && rest == [] && h.completed == {}
  }

  lemma StartingSettles(h: HandlerState, rest: seq<Timestamp>)
    requires Lists(rest, h.active) && h.completed <= h.active && h.state.Idle?
    ensures Settles(h, rest, Starting(h).0, Starting(h).1) && (rest == [] ==> Starting(h).1.Bound?)
    ensures StartCheckHolds(h)
  {
    FrontIs(h, rest);
  }

  /** What is so before and after a thread settles the loop. */
  ghost predicate Between(n: System) {
    OrderInv(n) && n.at.Nobody? && n.running !! n.h.completed && n.running + n.h.completed == n.h.active
  }

  /** A thread that settles the loop leaves the invariant. */
  lemma GoesKeepsInv(n: System, r: (HandlerState, Work), owner: Owner)
    requires Between(n)
    requires (owner.Task? && !r.1.Leave? ==> n.posted > 0) && Settles(n.h, Rest(n), r.0, r.1)
    requires r.1.Leave? && Rest(n) == [] ==> BoundIsSent(n)
    ensures Inv(Goes(n, r, owner))
  {
    hide Increasing, Lists;
    assert Rest(n) == n.prepared[|n.sent|..];
  }

  lemma PrepareKeepsInv(n: System, t: Timestamp)
    requires Inv(n) && Possible(n, Prepare(t))
    ensures ChecksHold(n, Prepare(t)) && Inv(Next(n, Prepare(t)))
  {
    hide Increasing, Lists;
    PreparedAreEarlier(n, t);
    PrepareKeepsOrder(n, t);
    PrepareKeepsContexts(n, t);
    assert |n.sent| < |n.prepared| ==> (n.prepared + [t])[|n.sent|] == n.prepared[|n.sent|];
    hide OrderInv, ContextsInv;
  }

  lemma PrepareKeepsContexts(n: System, t: Timestamp)
    requires ContextsInv(n) && t !in n.h.active && t !in n.running && t !in n.h.completed
    ensures ContextsInv(n.(h := n.h.(active := n.h.active + {t}), prepared := n.prepared + [t],
                           running := n.running + {t}))
  {
  }

  lemma PreparedAreEarlier(n: System, t: Timestamp)
    requires Inv(n) && Possible(n, Prepare(t))
    ensures forall u :: u in n.prepared ==> u < t
    ensures t !in n.h.active && t !in n.running && t !in n.h.completed
  {
    assert forall u :: u in n.prepared ==> u < t;
    ActiveArePrepared(n);
    assert n.at.Relocking? ==> n.at.t in n.prepared;
  }

  lemma PrepareKeepsOrder(n: System, t: Timestamp)
    requires OrderInv(n) && (forall u :: u in n.prepared ==> u < t)
    ensures OrderInv(n.(h := n.h.(active := n.h.active + {t}), prepared := n.prepared + [t],
                        running := n.running + {t}))
  {
    IncreasingSnoc(n.prepared, t);
    ActiveArePrepared(n);
    hide Increasing;
    ListsSnoc(Rest(n), n.h.active, t);
    hide Lists;
    assert (n.prepared + [t])[Recycled(n)..] == Rest(n) + [t];
  }

  lemma IncreasingSnoc(s: seq<Timestamp>, t: Timestamp)
    requires Increasing(s) && (forall u :: u in s ==> u < t)
    ensures Increasing(s + [t])
  {
    forall k | 0 <= k < |s| ensures s[k] < t {
      assert s[k] in s;
    }
  }

  lemma ActiveArePrepared(n: System)
    requires OrderInv(n)
    ensures forall u :: u in n.h.active ==> u in n.prepared
  {
    forall u | u in n.h.active ensures u in n.prepared {
      assert u in Rest(n);
    }
  }

  /** The invocation has its context in use, and is not completed. */
  lemma RunningIsActive(n: System, t: Timestamp)
    requires Inv(n) && t in n.running
    ensures t in n.h.active && t !in n.h.completed
  {
  }

  /** A change that meets a propagation thread leaves it to that thread. */
  lemma BusyChangeKeepsInv(n: System, m: System)
    requires Inv(n) && !n.at.Nobody?
    requires m == n.(h := n.h.(completed := m.h.completed, taskBound := m.h.taskBound), running := m.running,
                     posted := m.posted)
    requires n.h.completed < m.h.completed || (n.h.completed == m.h.completed && n.h.taskBound < m.h.taskBound)
    requires n.h.taskBound <= m.h.taskBound && n.posted <= m.posted && m.running <= n.running
    requires m.running + m.h.completed == n.running + n.h.completed && m.running !! m.h.completed
    ensures Changed(m.h).1.Leave? && Inv(m.(h := Changed(m.h).0))
  {
    hide Increasing, Lists;
  }

  /** A change that meets no propagation thread starts the loop. */
  lemma IdleChangeKeepsInv(n: System, m: System, owner: Owner)
    requires Inv(n) && n.at.Nobody?
    requires m == n.(h := n.h.(completed := m.h.completed, taskBound := m.h.taskBound), running := m.running,
                     posted := m.posted)
    requires m.running + m.h.completed == m.h.active && m.running !! m.h.completed
    requires owner.Task? ==> m.posted > 0
    ensures StartCheckHolds(m.h) && Inv(Goes(m, Starting(m.h), owner))
  {
    hide Increasing, Lists;
    assert Rest(m) == Rest(n);
    StartingSettles(m.h, Rest(m));
    hide Settles, Starting, StartCheckHolds;
    GoesKeepsInv(m, Starting(m.h), owner);
  }

  lemma PostKeepsInv(n: System, t: Timestamp)
    requires Inv(n) && Possible(n, Post(t))
    ensures ChecksHold(n, Post(t)) && Inv(Next(n, Post(t)))
  {
    hide Increasing, Lists, OrderInv;
    RunningIsActive(n, t);
    var m := n.(h := n.h.(completed := n.h.completed + {t}), running := n.running - {t}, posted := n.posted + 1);
    Moved(n.running, n.h.completed, t);
    hide ContextsInv, PlaceInv;
    if n.at.Nobody? {
      assert n.running + n.h.completed == n.h.active by {
        NobodyHolds(n);
      }
      IdleChangeKeepsInv(n, m, Task);
    } else {
      BusyChangeKeepsInv(n, m);
    }
  }

  lemma NobodyHolds(n: System)
    requires ContextsInv(n) && n.at.Nobody?
    ensures n.running + n.h.completed == n.h.active
  {
  }

  lemma Moved(from: set<Timestamp>, to: set<Timestamp>, t: Timestamp)
    requires t in from && t !in to && from !! to
    ensures (from - {t}) + (to + {t}) == from + to && (from - {t}) !! (to + {t}) && to < to + {t}
  {
  }

  lemma UpdateBoundKeepsInv(n: System, bound: Timestamp)
    requires Inv(n) && Possible(n, UpdateBound(bound))
    ensures ChecksHold(n, UpdateBound(bound)) && Inv(Next(n, UpdateBound(bound)))
  {
    var m := n.(h := n.h.(taskBound := bound));
    hide Increasing, Lists;
    if n.at.Nobody? {
      IdleChangeKeepsInv(n, m, Scheduler);
      IdleChangeKeepsInv(n, n, Scheduler);
    } else if bound != n.h.taskBound {
      BusyChangeKeepsInv(n, m);
    }
    hide OrderInv, ContextsInv, PlaceInv;
  }

  lemma SendingKeepsInv(n: System)
    requires Inv(n) && n.at.Sending?
    ensures ChecksHold(n, Advance) && Inv(Next(n, Advance))
  {
    hide Increasing, Lists;
    assert Rest(Next(n, Advance)) == Rest(n);
  }

  lemma RecyclingKeepsInv(n: System)
    requires Inv(n) && n.at.Recycling?
    ensures ChecksHold(n, Advance) && Inv(Next(n, Advance))
  {
    hide Increasing, Lists;
    var t, r := n.at.t, n.(h := n.h.(active := n.h.active - {n.at.t}), at := Relocking(n.at.t));
    assert Rest(n)[0] == t && Rest(r) == Rest(n)[1..];
    ListsFront(Rest(n), n.h.active);
    ListsTail(Rest(n), n.h.active);
    assert Next(n, Advance) == r;
    hide Next;
  }

  lemma RelockingKeepsInv(n: System)
    requires Inv(n) && n.at.Relocking?
    ensures ChecksHold(n, Advance) && Inv(Next(n, Advance))
  {
    hide Lists;
    var t := n.at.t;
    SentAreEarlier(n);
    hide Increasing;
    assert IsLeast(t, n.h.completed) && Least(n.h.completed) == t;
    var m := n.(h := n.h.(completed := n.h.completed - {t}), at := Nobody);
    assert m.running + m.h.completed == m.h.active && Rest(m) == Rest(n);
    AfterPacketsSettles(n.h, Rest(m), t);
    hide AfterPackets, Settles;
    assert Between(m);
    GoesKeepsInv(m, AfterPackets(n.h, t), n.owner);
  }

  lemma SentAreEarlier(n: System)
    requires OrderInv(n) && n.at.Relocking? && n.sent != [] && n.sent[|n.sent| - 1] == n.at.t
    ensures forall u :: u in n.h.active ==> n.at.t < u
  {
  }

  lemma AfterPacketsSettles(h: HandlerState, rest: seq<Timestamp>, t: Timestamp)
    requires Lists(rest, h.active) && IsLeast(t, h.completed) && h.completed - {t} <= h.active
             && h.state.PropagatingPackets?
    ensures h.completed != {t} ==> h.active != {}
    ensures var r := AfterPackets(h, t);
            && Settles(h.(completed := h.completed - {t}), rest, r.0, r.1)
            && (r.1.Bound? <==> rest == [] && h.taskBound > NextAllowedInStream(t))
  {
    FrontIs(h.(completed := h.completed - {t}), rest);
    hide Lists, FrontIsCompleted;
    assert h.completed - {t} == {} ==> h.completed == {t};
    assert Least(h.completed) == t;
  }

  lemma RelockingAtFront(n: System)
    requires Inv(n) && n.at.Relocking?
    ensures n.sent != [] && n.sent[|n.sent| - 1] == n.at.t && |n.sent| <= |n.prepared|
    ensures Lists(n.prepared[|n.sent|..], n.h.active) && IsLeast(n.at.t, n.h.completed)
    ensures n.h.completed - {n.at.t} <= n.h.active && n.h.state.PropagatingPackets?
  {
    SentAreEarlier(n);
    hide Increasing, Lists;
    assert Rest(n) == n.prepared[|n.sent|..];
  }

  lemma WhereItGoes(n: System)
    requires n.at.Relocking? && ChecksHold(n, Advance)
    ensures Possible(n, Advance)
    ensures n.h.completed != {} && (n.h.completed != {Least(n.h.completed)} ==> n.h.active != {})
    ensures Next(n, Advance).at.SendingBound? <==> AfterPackets(n.h, n.at.t).1.Bound?
  {
    hide AfterPackets;
  }

  /** After outputs were propagated, the bound follows exactly if no context is in use and
      the outputs do not imply it. */
  lemma ImpliedBoundIsLeftOut(n: System)
    requires Inv(n) && n.at.Relocking?
    ensures n.sent != []
    ensures Next(n, Advance).at.SendingBound? <==>
            |n.sent| == |n.prepared| && n.h.taskBound > NextAllowedInStream(n.sent[|n.sent| - 1])
  {
    hide *;
    RelockingKeepsInv(n);
    RelockingAtFront(n);
    AfterPacketsSettles(n.h, n.prepared[|n.sent|..], n.at.t);
    WhereItGoes(n);
  }

  /** A bound that is not new is not propagated again. */
  lemma SameBoundChangesNothing(n: System)
    requires Inv(n) && Possible(n, UpdateBound(n.h.taskBound))
    ensures Next(n, UpdateBound(n.h.taskBound)) == n
  {
    UpdateBoundKeepsInv(n, n.h.taskBound);
  }

  lemma RelockingBoundKeepsInv(n: System)
    requires Inv(n) && n.at.RelockingBound?
    ensures ChecksHold(n, Advance) && Inv(Next(n, Advance))
  {
    hide Increasing, Lists;
    var m, r := n.(at := Nobody), AfterBound(n.h);
    assert Rest(m) == Rest(n) && n.h.completed <= n.h.active;
    AfterBoundSettles(n.h, Rest(m), n.at.bound);
    hide AfterBound, Settles;
    GoesKeepsInv(m, r, n.owner);
    assert Goes(m, r, n.owner) == Next(n, Advance);
  }

  lemma AfterBoundSettles(h: HandlerState, rest: seq<Timestamp>, bound: Timestamp)
    requires Lists(rest, h.active) && h.completed <= h.active && BoundInv(h, bound)
    ensures Settles(h, rest, AfterBound(h).0, AfterBound(h).1)
    ensures h.active == {} <==> rest == []
    ensures AfterBound(h).1.Leave? && rest == [] ==> h.taskBound == bound
  {
    FrontIs(h, rest);
    hide Lists, FrontIsCompleted;
  }

  lemma SendingBoundKeepsInv(n: System)
    requires Inv(n) && n.at.SendingBound?
    ensures ChecksHold(n, Advance) && Inv(Next(n, Advance))
  {
    hide Increasing, Lists;
    assert Rest(Next(n, Advance)) == Rest(n);
  }

  lemma EndTaskKeepsInv(n: System)
    requires Inv(n) && Possible(n, EndTask)
    ensures ChecksHold(n, EndTask) && Inv(Next(n, EndTask))
  {
    hide Increasing, Lists;
    assert Rest(Next(n, EndTask)) == Rest(n);
  }

  /** Every step keeps the invariant, and no CHECK fails. */
  lemma NextKeepsInv(n: System, e: Event)
    requires Inv(n) && Possible(n, e)
    ensures ChecksHold(n, e) && Inv(Next(n, e))
  {
    hide Inv, Next, ChecksHold;
    match e
    case Prepare(t) => PrepareKeepsInv(n, t);
    case Post(t) => PostKeepsInv(n, t);
    case UpdateBound(bound) => UpdateBoundKeepsInv(n, bound);
    case EndTask => EndTaskKeepsInv(n);
    case Advance =>
      match n.at
      case Sending(_) => SendingKeepsInv(n);
      case Recycling(_) => RecyclingKeepsInv(n);
      case Relocking(_) => RelockingKeepsInv(n);
      case SendingBound(_) => SendingBoundKeepsInv(n);
      case RelockingBound(_) => RelockingBoundKeepsInv(n);
  }

  /** What a step does to the invocations, and to the task bound. */
  predicate Effect(n: System, e: Event, r: System) {
    && r.running == (match e case Prepare(t) => n.running + {t} case Post(t) => n.running - {t} case _ => n.running)
    && r.posted == (match e case Post(_) => n.posted + 1 case EndTask => n.posted - 1 case _ => n.posted)
    && r.prepared == (match e case Prepare(t) => n.prepared + [t] case _ => n.prepared)
    && r.h.taskBound == (match e case UpdateBound(bound) => bound case _ => n.h.taskBound)
    && (match e case Prepare(t) => r.h.active == n.h.active + {t} case _ => r.h.active <= n.h.active)
    && (SchedulerPropagates(r) ==> SchedulerPropagates(n) || e.UpdateBound?)
  }

  lemma StepHasEffect(n: System, e: Event)
    requires Inv(n) && Possible(n, e)
    ensures Effect(n, e, Next(n, e)) && (e.Prepare? ==> e.t !in n.running)
  {
    hide *;
    NextKeepsInv(n, e);
    if e.Prepare? {
      PreparedAreEarlier(n, e.t);
    }
    if e.Advance? {
      AdvanceIsOfThread(n);
      AdvanceHasEffect(n);
    } else {
      OtherHasEffect(n, e);
    }
  }

  lemma AdvanceIsOfThread(n: System)
    requires Possible(n, Advance)
    ensures !n.at.Nobody?
  {
  }

  lemma OtherHasEffect(n: System, e: Event)
    requires Possible(n, e) && ChecksHold(n, e) && !e.Advance?
    ensures Effect(n, e, Next(n, e))
  {
    hide Least, ChecksHold, Changed;
    match e
    case Post(t) => ChangeKeepsContexts(n.h.(completed := n.h.completed + {t}));
    case UpdateBound(bound) => ChangeKeepsContexts(n.h.(taskBound := bound));
    case _ =>
  }

  lemma ChangeKeepsContexts(h: HandlerState)
    ensures Changed(h).0.active == h.active && Changed(h).0.taskBound == h.taskBound
  {
    hide FrontIsCompleted, Least;
  }

  lemma AdvanceHasEffect(n: System)
    requires !n.at.Nobody? && ChecksHold(n, Advance)
    ensures Effect(n, Advance, Next(n, Advance))
  {
    hide FrontIsCompleted;
    match n.at
    case Relocking(t) => AfterPacketsKeepsContexts(n.h, t);
    case RelockingBound(_) => AfterBoundKeepsContexts(n.h);
    case _ =>
    hide AfterPackets, AfterBound;
  }

  lemma AfterPacketsKeepsContexts(h: HandlerState, t: Timestamp)
    requires h.completed != {} && (h.completed != {Least(h.completed)} ==> h.active != {})
    ensures AfterPackets(h, t).0.active == h.active && AfterPackets(h, t).0.taskBound == h.taskBound
  {
    hide FrontIsCompleted;
  }

  lemma AfterBoundKeepsContexts(h: HandlerState)
    ensures AfterBound(h).0.active == h.active && AfterBound(h).0.taskBound == h.taskBound
  {
    hide FrontIsCompleted, Least;
  }

  // ----- The guarantees -----

  ghost predicate Execution(n: System, events: seq<Event>)
    decreases |events|
  {
    events == [] || (Possible(n, events[0]) && Execution(Next(n, events[0]), events[1..]))
  }

  ghost function End(n: System, events: seq<Event>): System
    requires Execution(n, events)
    decreases |events|
  {
    if events == [] then n else End(Next(n, events[0]), events[1..])
  }

  lemma {:induction false} ExecutionKeepsInv(n: System, events: seq<Event>)
    requires Inv(n) && Execution(n, events)
    ensures Inv(End(n, events))
    decreases |events|
  {
    hide Inv, Next, Possible;
    if events != [] {
      NextKeepsInv(n, events[0]);
      ExecutionKeepsInv(Next(n, events[0]), events[1..]);
    }
  }

  /** However the invocations end, their outputs are propagated in the order of their
      timestamps, each after its invocation, and no CHECK fails. */
  lemma OutputsAreInOrder(events: seq<Event>)
    requires Execution(Start(), events)
    ensures var n := End(Start(), events);
            && !n.aborted && n.sent <= n.prepared && Increasing(n.sent)
            && (forall t :: t in n.running ==> t in n.prepared && t !in n.sent)
  {
    StartSatisfiesInv();
    ExecutionKeepsInv(Start(), events);
    var n := End(Start(), events);
    SentAreNotRunning(n);
    SentIncreases(n);
  }

  lemma SentIncreases(n: System)
    requires OrderInv(n)
    ensures Increasing(n.sent)
  {
    assert forall k :: 0 <= k < |n.sent| ==> n.sent[k] == n.prepared[k];
  }

  lemma SentAreNotRunning(n: System)
    requires Inv(n)
    ensures forall t :: t in n.running ==> t in n.prepared && t !in n.sent
  {
    ActiveArePrepared(n);
    forall t | t in n.running ensures t !in n.sent {
      RunningIsActive(n, t);
      NotJustSent(n, t);
      hide Inv;
      NotSentBefore(n, t);
    }
  }

  lemma NotJustSent(n: System, t: Timestamp)
    requires Inv(n) && t in n.running
    ensures OrderInv(n) && (n.at.Recycling? && n.sent != [] ==> t != n.sent[|n.sent| - 1])
  {
    hide OrderInv, ContextsInv;
  }

  lemma NotSentBefore(n: System, t: Timestamp)
    requires OrderInv(n) && t in n.h.active && (n.at.Recycling? && n.sent != [] ==> t != n.sent[|n.sent| - 1])
    ensures t !in n.sent
  {
    assert t in Rest(n);
    var k :| 0 <= k < |Rest(n)| && Rest(n)[k] == t;
    assert n.prepared[Recycled(n) + k] == t;
    forall j | 0 <= j < |n.sent| ensures n.sent[j] != t {
      assert n.sent[j] == n.prepared[j];
    }
  }

  /** Nothing is left behind: once every invocation has come to PostProcess and no
      thread propagates, all outputs were propagated, no context is in use, and the
      last bound was propagated or is implied. */
  lemma NothingIsLeft(events: seq<Event>)
    requires Execution(Start(), events)
    ensures var n := End(Start(), events);
            n.running == {} && n.at.Nobody? ==>
              n.sent == n.prepared && n.h.active == {} && n.h.completed == {} && BoundIsSent(n)
  {
    StartSatisfiesInv();
    ExecutionKeepsInv(Start(), events);
    var n := End(Start(), events);
    if n.running == {} && n.at.Nobody? {
      NoContextIsLeft(n);
    }
  }

  lemma NoContextIsLeft(n: System)
    requires Inv(n) && n.running == {} && n.at.Nobody?
    ensures n.sent == n.prepared && n.h.active == {} && n.h.completed == {}
  {
    FrontIs(n.h, Rest(n));
    assert Rest(n) == n.prepared[|n.sent|..];
  }

  /** While the scheduling thread does not propagate, a context is in use only if an
      invocation is in flight; and an invocation that has not come to PostProcess
      always has its context in use. */
  lemma ActiveMeansInFlight(n: System)
    requires Inv(n)
    ensures !SchedulerPropagates(n) && n.h.active != {} ==> n.running != {} || n.posted > 0
    ensures n.running <= n.h.active
  {
    if n.at.Nobody? && n.running == {} {
      NoContextIsLeft(n);
    }
    forall t | t in n.running ensures t in n.h.active {
      RunningIsActive(n, t);
    }
  }

  /** The eight transitions that are documented. */
  predicate IsDocumented(from: PropagationState, to: PropagationState) {
    || (from.Idle? && (to.PropagatingPackets? || to.PropagatingBound?))
    || (from.PropagatingPackets? && (to.Idle? || to.PropagatingBound?))
    || (from.PropagatingBound? && (to.PropagationPending? || to.Idle?))
    || (from.PropagationPending? && (to.PropagatingPackets? || to.Idle?))
  }

  /** A change makes a documented transition or none. */
  lemma ChangeTransitions(h: HandlerState)
    ensures Changed(h).0.state == h.state || IsDocumented(h.state, Changed(h).0.state)
  {
    hide FrontIsCompleted, Least;
  }

  lemma AfterPacketsTransitions(h: HandlerState, t: Timestamp)
    requires h.completed != {} && (h.completed != {Least(h.completed)} ==> h.active != {})
             && h.state.PropagatingPackets?
    ensures AfterPackets(h, t).0.state == h.state || IsDocumented(h.state, AfterPackets(h, t).0.state)
  {
    hide FrontIsCompleted;
  }

  /** The transitions of the propagation state: besides those that are documented, the
      propagation thread goes back from a pending change to propagating a bound, exactly
      when it finds no context in use. */
  lemma PropagationTransitions(n: System, e: Event)
    requires Inv(n) && Possible(n, e)
    ensures var (from, to) := (n.h.state, Next(n, e).h.state);
            from == to || IsDocumented(from, to) || (from.PropagationPending? && to.PropagatingBound?)
    ensures n.h.state.PropagationPending? && Next(n, e).h.state.PropagatingBound? <==>
            n.h.state.PropagationPending? && n.at.RelockingBound? && e.Advance? && n.h.active == {}
  {
    hide *;
    NextKeepsInv(n, e);
    if e.Advance? {
      AdvanceIsOfThread(n);
      AdvanceTransitions(n);
    } else {
      OtherTransitions(n, e);
    }
  }

  lemma OtherTransitions(n: System, e: Event)
    requires Possible(n, e) && ChecksHold(n, e) && !e.Advance?
    ensures Next(n, e).h.state == n.h.state || IsDocumented(n.h.state, Next(n, e).h.state)
    ensures !(n.h.state.PropagationPending? && Next(n, e).h.state.PropagatingBound?)
  {
    hide Changed, ChecksHold;
    match e
    case Post(t) => ChangeTransitions(n.h.(completed := n.h.completed + {t}));
    case UpdateBound(bound) => ChangeTransitions(n.h.(taskBound := bound));
    case _ =>
  }

  lemma AdvanceTransitions(n: System)
    requires Inv(n) && !n.at.Nobody?
    ensures var (from, to) := (n.h.state, Next(n, Advance).h.state);
            && (from == to || IsDocumented(from, to) || (from.PropagationPending? && to.PropagatingBound?))
            && (from.PropagationPending? && to.PropagatingBound? <==>
                from.PropagationPending? && n.at.RelockingBound? && n.h.active == {})
  {
    NextKeepsInv(n, Advance);
    if n.at.Relocking? {
      RelockingTransitions(n);
    }
    hide OrderInv, ContextsInv, FrontIsCompleted, AfterPackets, FrontRuns, BoundIsSent, IsLastSent, ChecksHold;
  }

  lemma RelockingTransitions(n: System)
    requires Inv(n) && n.at.Relocking?
    ensures var (from, to) := (n.h.state, Next(n, Advance).h.state);
            from.PropagatingPackets? && (from == to || IsDocumented(from, to))
  {
    NextKeepsInv(n, Advance);
    hide OrderInv, ContextsInv, FrontIsCompleted, AfterPackets, Inv;
    AfterPacketsTransitions(n.h, n.at.t);
  }

  lemma {:induction false} ExecutionGrows(n: System, events: seq<Event>, e: Event)
    requires Execution(n, events) && Possible(End(n, events), e)
    ensures Execution(n, events + [e]) && End(n, events + [e]) == Next(End(n, events), e)
    decreases |events|
  {
    hide Possible, Next;
    if events == [] {
      assert [e][1..] == [] && Execution(Next(n, e), []);
    } else {
      ExecutionGrows(Next(n, events[0]), events[1..], e);
      assert (events + [e])[0] == events[0] && (events + [e])[1..] == events[1..] + [e];
    }
  }

  /** One invocation, at 0. */
  function OneInvocation(h: HandlerState, at: Place, running: set<Timestamp>, posted: nat,
                         sent: seq<Timestamp>): System {
    System(h, at, Task, [0], running, posted, sent, UNSET, false)
  }

  lemma OneIsPosted()
    ensures var n := OneInvocation(HandlerState({0}, {}, Idle, UNSET), Nobody, {0}, 0, []);
            && Possible(Start(), Prepare(0)) && Next(Start(), Prepare(0)) == n
            && Possible(n, Post(0))
            && Next(n, Post(0)) ==
               OneInvocation(HandlerState({0}, {0}, PropagatingPackets, UNSET), Sending(0), {}, 1, [])
  {
    assert [] + [0] == [0] && {} + {0} == {0} && {0} - {0} == {};
    assert Least({0}) == 0;
  }

  lemma OneIsRecycled()
    ensures var n := OneInvocation(HandlerState({0}, {0}, PropagatingPackets, UNSET), Sending(0), {}, 1, []);
            var m := OneInvocation(HandlerState({0}, {0}, PropagatingPackets, UNSET), Recycling(0), {}, 1, [0]);
            && Possible(n, Advance) && Next(n, Advance) == m && Possible(m, Advance)
            && Next(m, Advance) ==
               OneInvocation(HandlerState({}, {0}, PropagatingPackets, UNSET), Relocking(0), {}, 1, [0])
  {
    assert Least({0}) == 0 && {0} - {0} == {};
  }

  lemma BoundComesAlong()
    ensures var n := OneInvocation(HandlerState({}, {0}, PropagatingPackets, UNSET), Relocking(0), {}, 1, [0]);
            var m := OneInvocation(HandlerState({}, {0}, PropagatingPackets, 10), Relocking(0), {}, 1, [0]);
            && Possible(n, UpdateBound(10)) && Next(n, UpdateBound(10)) == m && Possible(m, Advance)
            && Next(m, Advance) ==
               OneInvocation(HandlerState({}, {}, PropagatingBound, 10), SendingBound(10), {}, 1, [0])
  {
    assert Least({0}) == 0 && {0} - {0} == {};
  }

  lemma AnotherBoundComes()
    ensures var n := OneInvocation(HandlerState({}, {}, PropagatingBound, 10), SendingBound(10), {}, 1, [0]);
            var m := OneInvocation(HandlerState({}, {}, PropagationPending, 20), SendingBound(10), {}, 1, [0]);
            var r := OneInvocation(HandlerState({}, {}, PropagationPending, 20), RelockingBound(10), {}, 1, [0]);
            && Possible(n, UpdateBound(20)) && Next(n, UpdateBound(20)) == m && Possible(m, Advance)
            && Next(m, Advance) == r.(sentBound := 10)
            && Possible(r.(sentBound := 10), Advance) && Next(r.(sentBound := 10), Advance).h.state == PropagatingBound
  {
  }

  /** The undocumented transition does happen. */
  lemma PendingMayPropagateBound() returns (events: seq<Event>)
    ensures Execution(Start(), events)
    ensures var n := End(Start(), events);
            Possible(n, Advance) && n.h.state.PropagationPending? && Next(n, Advance).h.state.PropagatingBound?
  {
    OneIsPosted();
    OneIsRecycled();
    BoundComesAlong();
    AnotherBoundComes();
    assert Execution(Start(), []) && End(Start(), []) == Start();
    hide Possible, Next, Execution, End;
    events := [];
    ExecutionGrows(Start(), events, Prepare(0));
    events := events + [Prepare(0)];
    ExecutionGrows(Start(), events, Post(0));
    events := events + [Post(0)];
    ExecutionGrows(Start(), events, Advance);
    events := events + [Advance];
    ExecutionGrows(Start(), events, Advance);
    events := events + [Advance];
    ExecutionGrows(Start(), events, UpdateBound(10));
    events := events + [UpdateBound(10)];
    ExecutionGrows(Start(), events, Advance);
    events := events + [Advance];
    ExecutionGrows(Start(), events, UpdateBound(20));
    events := events + [UpdateBound(20)];
    ExecutionGrows(Start(), events, Advance);
    events := events + [Advance];
  }
}
