/**
 * `TimerComponent` (src/index.js:116-170): the stopwatch's local state, its
 * handlers and lifecycle hooks, over the host's timer table.
 */
module Stopwatch {
  import opened Wrappers
  import opened HostTimer

  /**
   * A snapshot: the component state `{ currentTime, interval }`, the connected prop
   * `currentInterval`, whether the component is mounted, and the host's timers.
   */
  datatype TimerState = TimerState(
    currentTime: int,
    interval: Option<Handle>,
    currentInterval: int,
    mounted: bool,
    timers: Timers)

  /** A freshly mounted component: `{ currentTime: 0, interval: null }`. */
  function Initial(currentInterval: int, timers: Timers): (r: TimerState)
    ensures r.currentTime == 0 && r.interval == None && r.mounted
    ensures r.currentInterval == currentInterval && r.timers == timers
  {
    TimerState(0, None, currentInterval, true, timers)
  }

  /**
   * `handleStart`: schedules a new handle with period `currentInterval * 1000`,
   * fixed now, and stores it, without clearing the handle stored before.
   */
  function Start(w: TimerState): (r: TimerState)
    ensures r.interval.Some?
    ensures Fresh(w.timers) ==> r.interval.value !in w.timers.live && Fresh(r.timers)
    ensures r.timers.live == w.timers.live[r.interval.value := w.currentInterval * 1000]
    ensures r.currentTime == w.currentTime && r.currentInterval == w.currentInterval
    ensures r.mounted == w.mounted
  {
    var (t, h) := Schedule(w.timers, w.currentInterval * 1000);
    w.(interval := Some(h), timers := t)
  }

  /** `handleStop`: clears the stored handle, resets the time to 0 and the handle to null. */
  function Stop(w: TimerState): (r: TimerState)
    ensures r.currentTime == 0 && r.interval == None
    ensures r.timers == Cancel(w.timers, w.interval)
    ensures r.currentInterval == w.currentInterval && r.mounted == w.mounted
  {
    w.(currentTime := 0, interval := None, timers := Cancel(w.timers, w.interval))
  }

  /**
   * The host fires handle `h`: the callback adds the prop `currentInterval` as it
   * is now, not the period the handle was scheduled with. A handle that is not live
   * never fires, and `setState` on an unmounted component is ignored.
   */
  function Fire(w: TimerState, h: Handle): (r: TimerState)
    ensures r.currentTime == if h in w.timers.live && w.mounted then w.currentTime + w.currentInterval else w.currentTime
    ensures r.(currentTime := w.currentTime) == w
  {
    if h in w.timers.live && w.mounted then w.(currentTime := w.currentTime + w.currentInterval) else w
  }

  /**
   * `componentDidUpdate(prevProps, prevState)`: when the interval prop changed and
   * the previous handle was not null, clear the stored handle and start again with
   * the new interval; otherwise nothing happens.
   */
  function DidUpdate(w: TimerState, prevInterval: int, prevHandle: Option<Handle>): (r: TimerState)
    ensures prevInterval == w.currentInterval || prevHandle.None? ==> r == w
    ensures prevInterval != w.currentInterval && prevHandle.Some? ==>
      && r.currentTime == w.currentTime
      && r.currentInterval == w.currentInterval && r.mounted == w.mounted
      && r.interval.Some?
      && (Fresh(w.timers) ==> r.interval.value !in w.timers.live)
      && r.timers.live == Cancel(w.timers, w.interval).live[r.interval.value := w.currentInterval * 1000]
  {
    if prevInterval != w.currentInterval && prevHandle.Some? then
      Start(w.(timers := Cancel(w.timers, w.interval)))
    else
      w
  }

  /** A re-render with the interval prop `v` (after a store change), then `componentDidUpdate`. */
  function Rerender(w: TimerState, v: int): (r: TimerState)
    ensures r.currentInterval == v && r.currentTime == w.currentTime && r.mounted == w.mounted
  {
    DidUpdate(w.(currentInterval := v), w.currentInterval, w.interval)
  }

  /**
   * `componentWillUnmount` clears `this.state.currentInterval`, which is undefined,
   * so no timer is cleared.
   */
  function Unmount(w: TimerState): (r: TimerState)
    ensures !r.mounted && r.timers == w.timers && r.interval == w.interval
  {
    w.(mounted := false)
  }

  /** `handleStart` with the stored handle cleared before the new one is scheduled. */
  function StartReplacing(w: TimerState): (r: TimerState)
    ensures r.interval.Some? && r.currentTime == w.currentTime
    ensures r.timers.live == Cancel(w.timers, w.interval).live[r.interval.value := w.currentInterval * 1000]
    ensures Fresh(w.timers) && w.interval.Some? && w.interval.value in w.timers.live ==>
      w.interval.value !in r.timers.live
  {
    Start(w.(timers := Cancel(w.timers, w.interval)))
  }

  /** `componentWillUnmount` clearing the stored handle `this.state.interval`. */
  function UnmountClearing(w: TimerState): (r: TimerState)
    ensures !r.mounted && r.timers == Cancel(w.timers, w.interval)
  {
    w.(mounted := false, timers := Cancel(w.timers, w.interval))
  }

  /**
   * The resource-safety invariant: a handle is live only while the component is
   * mounted and only if it is the stored one, and the stored one is live while mounted.
   */
  predicate Tidy(w: TimerState)
  {
    && Fresh(w.timers)
    && (forall k :: k in w.timers.live ==> w.mounted && w.interval == Some(k))
    && (w.mounted && w.interval.Some? ==> w.interval.value in w.timers.live)
  }

  lemma InitialIsTidy(v: int)
    ensures Tidy(Initial(v, NO_TIMERS))
  {
  }

  /** What reaches the component: clicks, ticks, new props, teardown. */
  datatype Event = StartClick | StopClick | Tick(handle: Handle) | IntervalProp(value: int) | Teardown

  /**
   * One event as the source handles it. Once unmounted, the component receives no
   * clicks and no re-renders; only the host's ticks still arrive.
   */
  function Step(w: TimerState, e: Event): (r: TimerState)
    ensures !w.mounted ==> r == w
    ensures r.currentInterval == if w.mounted && e.IntervalProp? then e.value else w.currentInterval
  {
    if !w.mounted then (if e.Tick? then Fire(w, e.handle) else w)
    else match e
      case StartClick => Start(w)
      case StopClick => Stop(w)
      case Tick(h) => Fire(w, h)
      case IntervalProp(v) => Rerender(w, v)
      case Teardown => Unmount(w)
  }

  /** One event with the corrected `handleStart` and `componentWillUnmount`. */
  function StepCorrected(w: TimerState, e: Event): (r: TimerState)
    ensures !w.mounted ==> r == w
    ensures r.currentInterval == if w.mounted && e.IntervalProp? then e.value else w.currentInterval
  {
    if !w.mounted then (if e.Tick? then Fire(w, e.handle) else w)
    else match e
      case StartClick => StartReplacing(w)
      case StopClick => Stop(w)
      case Tick(h) => Fire(w, h)
      case IntervalProp(v) => Rerender(w, v)
      case Teardown => UnmountClearing(w)
  }

  function Replay(w: TimerState, events: seq<Event>): TimerState
    decreases |events|
  {
    if events == [] then w else Replay(Step(w, events[0]), events[1..])
  }

  function ReplayCorrected(w: TimerState, events: seq<Event>): TimerState
    decreases |events|
  {
    if events == [] then w else ReplayCorrected(StepCorrected(w, events[0]), events[1..])
  }

  /** A running component holds a stored handle. */
  predicate Running(w: TimerState)
  {
    w.mounted && w.interval.Some?
  }

  /**
   * As written, an event breaks the invariant exactly when the component is running
   * and the event is Start (the old handle leaks) or teardown (the handle outlives
   * the component).
   */
  lemma StepKeepsTidyUnlessLeaking(w: TimerState, e: Event)
    requires Tidy(w)
    ensures Tidy(Step(w, e)) <==> !(Running(w) && (e.StartClick? || e.Teardown?))
  {
  }

  /** A re-render of a mounted component keeps the invariant, restart included. */
  lemma RerenderKeepsTidy(w: TimerState, v: int)
    requires Tidy(w) && w.mounted
    ensures Tidy(Rerender(w, v))
  {
  }

  /** With the corrections every event keeps the invariant. */
  lemma StepCorrectedKeepsTidy(w: TimerState, e: Event)
    requires Tidy(w)
    ensures Tidy(StepCorrected(w, e))
  {
  }

  /** With the corrections no sequence of events ever leaks a timer. */
  lemma {:induction false} ReplayCorrectedKeepsTidy(w: TimerState, events: seq<Event>)
    requires Tidy(w)
    ensures Tidy(ReplayCorrected(w, events))
    decreases |events|
  {
    if events != [] {
      StepCorrectedKeepsTidy(w, events[0]);
      ReplayCorrectedKeepsTidy(StepCorrected(w, events[0]), events[1..]);
    }
  }

  /** Under the invariant, no tick changes anything after Stop. */
  lemma NoTickAfterStop(w: TimerState, h: Handle)
    requires Tidy(w)
    ensures Fire(Stop(w), h) == Stop(w)
  {
  }

  /** Under the invariant, the corrected teardown leaves no live timer. */
  lemma NoTimerAfterCorrectedTeardown(w: TimerState)
    requires Tidy(w)
    ensures UnmountClearing(w).timers.live == map[]
  {
  }

  /**
   * Two Start clicks on a stopped component leave two live handles; after Stop the
   * first still fires and still adds the interval.
   */
  lemma DoubleStartLeaks(w: TimerState)
    requires Tidy(w) && w.mounted && w.interval == None
    ensures var once := Start(w); var twice := Start(once);
      && once.interval.value in twice.timers.live
      && twice.interval.value in twice.timers.live
      && once.interval != twice.interval
      && !Tidy(twice)
      && var stopped := Stop(twice);
      && once.interval.value in stopped.timers.live
      && Fire(stopped, once.interval.value).currentTime == w.currentInterval
  {
  }

  /**
   * Clicking Start twice and then Stop, as written: the leaked first handle (id 1)
   * still ticks, so the stopped stopwatch shows 1 instead of 0.
   */
  lemma TimeRunsAfterStop()
    ensures Replay(Initial(1, NO_TIMERS), [StartClick, StartClick, StopClick, Tick(1)]).currentTime == 1
  {
  }

  /** Teardown while running leaves the stored handle live. */
  lemma TeardownLeaksHandle(w: TimerState)
    requires Tidy(w) && Running(w)
    ensures w.interval.value in Unmount(w).timers.live && !Tidy(Unmount(w))
  {
  }

  /**
   * A new interval while running restarts the tick with the new period, clears the
   * old handle and keeps the elapsed time.
   */
  lemma RestartKeepsElapsedTime(w: TimerState, v: int)
    requires Tidy(w) && Running(w) && v != w.currentInterval
    ensures var r := Rerender(w, v);
      && r.currentTime == w.currentTime
      && r.currentInterval == v && r.mounted == w.mounted
      && r.interval.Some?
      && (Fresh(w.timers) ==> r.interval.value !in w.timers.live)
      && r.timers.live == map[r.interval.value := v * 1000]
  {
  }

  /** A new interval while stopped only changes the prop. */
  lemma StoppedIgnoresNewInterval(w: TimerState, v: int)
    requires w.interval == None
    ensures Rerender(w, v) == w.(currentInterval := v)
  {
  }

  /**
   * Start with interval 1, three ticks: the time is 3; Stop resets it to 0 and
   * clears the handle.
   */
  lemma ThreeTicksThenStop()
    ensures var s := Start(Initial(1, NO_TIMERS));
      var h := s.interval.value;
      var ticked := Fire(Fire(Fire(s, h), h), h);
      && ticked.currentTime == 3
      && Stop(ticked).currentTime == 0 && Stop(ticked).interval == None
      && Stop(ticked).timers.live == map[]
  {
  }

  /**
   * Start with interval 1, one tick, interval raised to 2 while running: the time
   * stays 1, the next tick of the new handle gives 3, the old handle no longer fires.
   */
  lemma RestartOnIntervalChange()
    ensures var s := Start(Initial(1, NO_TIMERS));
      var first := s.interval.value;
      var r := Rerender(Fire(s, first), 2);
      && r.currentTime == 1
      && r.timers.live == map[r.interval.value := 2000]
      && Fire(r, r.interval.value).currentTime == 3
      && Fire(r, first) == r
  {
  }

  /** The mounted `TimerComponent` instance with its connected prop. */
  class Timer {
    const host: Host
    var currentTime: int
    var interval: Option<Handle>
    var currentInterval: int
    var mounted: bool

    ghost function Snapshot(): TimerState
      reads this, host
    {
      TimerState(currentTime, interval, currentInterval, mounted, host.timers)
    }

    constructor (host: Host, currentInterval: int)
      ensures this.host == host
      ensures Snapshot() == Initial(currentInterval, host.timers)
    {
      this.host := host;
      currentTime := 0;
      interval := None;
      this.currentInterval := currentInterval;
      mounted := true;
    }

    method HandleStart()
      requires host.Valid()
      modifies this, host
      ensures host.Valid()
      ensures Snapshot() == Start(old(Snapshot()))
    {
      var h := host.SetInterval(currentInterval * 1000);
      interval := Some(h);
    }

    method HandleStop()
      requires host.Valid()
      modifies this, host
      ensures host.Valid()
      ensures Snapshot() == Stop(old(Snapshot()))
    {
      host.ClearInterval(interval);
      currentTime := 0;
      interval := None;
    }

    /** The host fires `h`; the callback's updater reads the prop at firing time. */
    method Tick(h: Handle)
      modifies this
      ensures Snapshot() == Fire(old(Snapshot()), h)
    {
      if h in host.timers.live && mounted {
        currentTime := currentTime + currentInterval;
      }
    }

    method ComponentDidUpdate(prevInterval: int, prevHandle: Option<Handle>)
      requires host.Valid()
      modifies this, host
      ensures host.Valid()
      ensures Snapshot() == DidUpdate(old(Snapshot()), prevInterval, prevHandle)
    {
      if prevInterval != currentInterval && prevHandle.Some? {
        host.ClearInterval(interval);
        HandleStart();
      }
    }

    /** The store changed: re-render with the new prop, then `componentDidUpdate`. */
    method ReceiveInterval(v: int)
      requires host.Valid()
      modifies this, host
      ensures host.Valid()
      ensures Snapshot() == Rerender(old(Snapshot()), v)
    {
      var prevInterval, prevHandle := currentInterval, interval;
      currentInterval := v;
      ComponentDidUpdate(prevInterval, prevHandle);
    }

    method ComponentWillUnmount()
      modifies this
      ensures Snapshot() == Unmount(old(Snapshot()))
    {
      mounted := false;
    }

    method HandleStartReplacing()
      requires host.Valid()
      modifies this, host
      ensures host.Valid()
      ensures Snapshot() == StartReplacing(old(Snapshot()))
    {
      host.ClearInterval(interval);
      HandleStart();
    }

    method ComponentWillUnmountClearing()
      requires host.Valid()
      modifies this, host
      ensures host.Valid()
      ensures Snapshot() == UnmountClearing(old(Snapshot()))
    {
      host.ClearInterval(interval);
      mounted := false;
    }
  }
}
