/** The states of a graph run, and whether the scheduler queues run in them. */
module RunStates {

  datatype RunState = NotStarted | Running | Paused | Cancelling | Terminated

  /** The state, the running count of each queue, and whether a thread is activating
      sources: it pauses the queues for that, without the state lock. */
  datatype Control = Control(state: RunState, counts: seq<int>, activating: bool)

  function Shifted(counts: seq<int>, running: bool): seq<int> {
    seq(|counts|, i requires 0 <= i < |counts| => counts[i] + if running then 1 else -1)
  }

  function Suspended(c: Control): Control {
    if c.state.Running? then c.(state := Paused, counts := Shifted(c.counts, false)) else c
  }

  function Resumed(c: Control): Control {
    if c.state.Paused? then c.(state := Running, counts := Shifted(c.counts, true)) else c
  }

  function Cancelled(c: Control): Control {
    if !c.state.Running? && !c.state.Paused? then c
    else c.(state := Cancelling, counts := if c.state.Paused? then Shifted(c.counts, true) else c.counts)
  }

  class Scheduler {
    var state: RunState
    var runningCounts: seq<int>
    ghost var activating: bool

    ghost function State(): Control
      reads this
    {
      Control(state, runningCounts, activating)
    }

    method SetQueuesRunning(running: bool)
      modifies `runningCounts
      ensures runningCounts == Shifted(old(runningCounts), running)
    {
      ghost var counts := runningCounts;
      for i := 0 to |runningCounts|
        invariant |runningCounts| == |counts|
        invariant forall j :: 0 <= j < |counts| ==>
                  runningCounts[j] == if j < i then Shifted(counts, running)[j] else counts[j]
      {
        runningCounts := runningCounts[i := runningCounts[i] + if running then 1 else -1];
      }
    }

    method Start()
      requires state == NotStarted
      modifies this
      ensures State() == old(State()).(state := Running, counts := Shifted(old(runningCounts), true))
    {
      state := Running;
      SetQueuesRunning(true);
    }

    method Pause()
      modifies this
      ensures State() == Suspended(old(State()))
    {
      if state != Running {
        return;
      }
      state := Paused;
      SetQueuesRunning(false);
    }

    method Resume()
      modifies this
      ensures State() == Resumed(old(State()))
    {
      if state != Paused {
        return;
      }
      state := Running;
      SetQueuesRunning(true);
    }

    method Cancel()
      modifies this
      ensures State() == Cancelled(old(State()))
    {
      if state != Running && state != Paused {
        return;
      }
      if state == Paused {
        SetQueuesRunning(true);
      }
      state := Cancelling;
    }

    /** Called only by the thread that handles idleness. */
    method Quit()
      requires state == Running || state == Cancelling
      modifies this
      ensures State() == old(State()).(state := Terminated, counts := Shifted(old(runningCounts), false))
    {
      SetQueuesRunning(false);
      state := Terminated;
    }
  }

  datatype Event = Start | Pause | Resume | Cancel | Quit | BeginActivation | EndActivation | Reset

  predicate IsActive(s: RunState) {
    s.Running? || s.Cancelling?
  }

  /** One thread handles idleness, so it cannot quit while it activates sources. */
  predicate Possible(c: Control, e: Event) {
    match e
    case Start => c.state.NotStarted?
    case Quit => IsActive(c.state) && !c.activating
    case BeginActivation => IsActive(c.state) && !c.activating
    case EndActivation => c.activating
    case Reset => c.state.Terminated?
    case _ => true
  }

  function Next(c: Control, e: Event): Control
    requires Possible(c, e)
  {
    match e
    case Start => c.(state := Running, counts := Shifted(c.counts, true))
    case Pause => Suspended(c)
    case Resume => Resumed(c)
    case Cancel => Cancelled(c)
    case Quit => c.(state := Terminated, counts := Shifted(c.counts, false))
    case BeginActivation => c.(counts := Shifted(c.counts, false), activating := true)
    case EndActivation => c.(counts := Shifted(c.counts, true), activating := false)
    case Reset => c.(state := NotStarted, counts := seq(|c.counts|, _ => 0))
  }

  ghost predicate CanRun(c: Control, events: seq<Event>)
    decreases |events|
  {
    events == [] || (Possible(c, events[0]) && CanRun(Next(c, events[0]), events[1..]))
  }

  ghost function Run(c: Control, events: seq<Event>): Control
    requires CanRun(c, events)
    decreases |events|
  {
    if events == [] then c else Run(Next(c, events[0]), events[1..])
  }

  /** What the running count of every queue is. */
  function CountIn(c: Control): int {
    (if IsActive(c.state) then 1 else 0) - (if c.activating then 1 else 0)
  }

  ghost predicate Inv(c: Control) {
    && (forall i :: 0 <= i < |c.counts| ==> c.counts[i] == CountIn(c))
    && (c.state.NotStarted? || c.state.Terminated? ==> !c.activating)
  }

  /** However pausing, resuming, cancelling and activating sources interleave, every
      queue runs exactly while the run is active and no sources are being activated,
      and its running count is never above 1. */
  lemma {:induction false} QueuesRunWhileActive(c: Control, events: seq<Event>)
    requires Inv(c) && CanRun(c, events)
    ensures var r := Run(c, events);
            && Inv(r) && |r.counts| == |c.counts|
            && forall i :: 0 <= i < |r.counts| ==>
                 r.counts[i] <= 1 && (r.counts[i] > 0 <==> IsActive(r.state) && !r.activating)
    decreases |events|
  {
    if events != [] {
      QueuesRunWhileActive(Next(c, events[0]), events[1..]);
    }
  }

  // ----- What the events say of the state -----

  /** The present run began with event `i`. */
  ghost predicate BeganAt(events: seq<Event>, i: nat) {
    i < |events| && events[i].Start? && forall j :: i < j < |events| ==> !events[j].Start? && !events[j].Reset?
  }

  ghost predicate HappenedSince(events: seq<Event>, i: nat, e: Event) {
    exists j :: i < j < |events| && events[j] == e
  }

  /** There was a Pause since, and no Resume after it. */
  ghost predicate PausedSince(events: seq<Event>, i: nat) {
    exists j :: i < j < |events| && events[j].Pause? && !HappenedSince(events, j, Resume)
  }

  /** The state as the events tell it: a run that has begun is terminated once it has quit,
      else cancelling once it was cancelled, else paused or running as was said last. */
  ghost predicate Tells(events: seq<Event>, state: RunState) {
    match state
    case NotStarted => forall i: nat :: !BeganAt(events, i)
    case Terminated => exists i :: BeganAt(events, i) && HappenedSince(events, i, Quit)
    case Cancelling =>
      exists i :: BeganAt(events, i) && !HappenedSince(events, i, Quit) && HappenedSince(events, i, Cancel)
    case Paused =>
      exists i :: BeganAt(events, i) && !HappenedSince(events, i, Quit) && !HappenedSince(events, i, Cancel)
        && PausedSince(events, i)
    case Running =>
      exists i :: BeganAt(events, i) && !HappenedSince(events, i, Quit) && !HappenedSince(events, i, Cancel)
        && !PausedSince(events, i)
  }

  lemma {:induction false} RunSnoc(c: Control, events: seq<Event>, e: Event)
    requires CanRun(c, events + [e])
    ensures CanRun(c, events) && Possible(Run(c, events), e) && Run(c, events + [e]) == Next(Run(c, events), e)
    decreases |events|
  {
    if events == [] {
      assert ([] + [e])[1..] == [];
    } else {
      assert (events + [e])[0] == events[0] && (events + [e])[1..] == events[1..] + [e];
      RunSnoc(Next(c, events[0]), events[1..], e);
    }
  }

  lemma BeganAfter(events: seq<Event>, e: Event, i: nat)
    ensures i < |events| ==>
              (BeganAt(events + [e], i) <==> BeganAt(events, i) && !e.Start? && !e.Reset?)
    ensures i == |events| ==> (BeganAt(events + [e], i) <==> e.Start?)
  {
    if i < |events| && BeganAt(events + [e], i) {
      assert (events + [e])[|events|] == e;
      forall j | i < j < |events| ensures !events[j].Start? && !events[j].Reset? {
        assert (events + [e])[j] == events[j];
      }
    }
  }

  lemma HappenedAfter(events: seq<Event>, e: Event, i: nat, what: Event)
    ensures i < |events| ==>
              (HappenedSince(events + [e], i, what) <==> HappenedSince(events, i, what) || e == what)
    ensures i >= |events| ==> !HappenedSince(events + [e], i, what)
  {
    assert (events + [e])[|events|] == e;
    if HappenedSince(events, i, what) {
      var j :| i < j < |events| && events[j] == what;
      assert (events + [e])[j] == what;
    }
  }

  lemma PausedAfter(events: seq<Event>, e: Event, i: nat)
    ensures i < |events| ==>
              (PausedSince(events + [e], i) <==> e.Pause? || (PausedSince(events, i) && !e.Resume?))
    ensures i >= |events| ==> !PausedSince(events + [e], i)
  {
    var more := events + [e];
    assert more[|events|] == e;
    forall j: nat | j <= |events|
      ensures HappenedSince(more, j, Resume) <==> j < |events| && (HappenedSince(events, j, Resume) || e.Resume?)
    {
      HappenedAfter(events, e, j, Resume);
    }
    hide HappenedSince;
    if e.Pause? && i < |events| {
      assert more[|events|].Pause? && !HappenedSince(more, |events|, Resume);
    }
    if PausedSince(events, i) && !e.Resume? {
      var j :| i < j < |events| && events[j].Pause? && !HappenedSince(events, j, Resume);
      assert more[j].Pause? && !HappenedSince(more, j, Resume);
    }
    if j :| i < j < |more| && more[j].Pause? && !HappenedSince(more, j, Resume) {
      assert j < |events| ==> events[j].Pause? && !HappenedSince(events, j, Resume) && !e.Resume?;
    }
  }

  lemma OneBeginning(events: seq<Event>, i: nat, j: nat)
    requires BeganAt(events, i) && BeganAt(events, j)
    ensures i == j
  {
  }

  lemma TellsNext(c: Control, events: seq<Event>, e: Event)
    requires Tells(events, c.state) && Possible(c, e)
    ensures Tells(events + [e], Next(c, e).state)
  {
    var more := events + [e];
    forall i: nat
      ensures BeganAt(more, i) <==> (BeganAt(events, i) && !e.Start? && !e.Reset?) || (i == |events| && e.Start?)
      ensures i < |events| ==> (HappenedSince(more, i, Quit) <==> HappenedSince(events, i, Quit) || e.Quit?)
      ensures i < |events| ==> (HappenedSince(more, i, Cancel) <==> HappenedSince(events, i, Cancel) || e.Cancel?)
      ensures i < |events| ==> (PausedSince(more, i) <==> e.Pause? || (PausedSince(events, i) && !e.Resume?))
      ensures i == |events| ==>
                !HappenedSince(more, i, Quit) && !HappenedSince(more, i, Cancel) && !PausedSince(more, i)
      ensures BeganAt(events, i) ==> i < |events|
    {
      BeganAfter(events, e, i);
      HappenedAfter(events, e, i, Quit);
      HappenedAfter(events, e, i, Cancel);
      PausedAfter(events, e, i);
    }
    hide BeganAt, HappenedSince, PausedSince;
    if e.Start? {
      assert BeganAt(more, |events|);
    }
  }

  /** From the start, and whatever other threads do, the state of the run is the one that
      the events tell. */
  lemma {:induction false} StateIsTold(c: Control, events: seq<Event>)
    requires c.state.NotStarted? && CanRun(c, events)
    ensures Tells(events, Run(c, events).state)
    decreases |events|
  {
    if events != [] {
      var before, e := events[..|events| - 1], events[|events| - 1];
      assert events == before + [e];
      RunSnoc(c, before, e);
      StateIsTold(c, before);
      TellsNext(Run(c, before), before, e);
    }
  }

  /** The events tell one state only. */
  lemma OneStateIsTold(events: seq<Event>, a: RunState, b: RunState)
    requires Tells(events, a) && Tells(events, b)
    ensures a == b
  {
    forall i: nat, j: nat | BeganAt(events, i) && BeganAt(events, j) ensures i == j {
      OneBeginning(events, i, j);
    }
    hide BeganAt, HappenedSince, PausedSince;
  }
}
