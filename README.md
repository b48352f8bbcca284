# Slomux stopwatch — a Dafny model

The repository is a small React application built on "Slomux", a deliberately
simplified Flux store. The store holds one number, the stopwatch's tick interval in
seconds. An interval control dispatches `CHANGE_INTERVAL` actions of -1 and +1. A
stopwatch component starts a periodic host timer. Each tick adds the current interval
to the elapsed time. When the interval changes while the stopwatch runs, the timer is
restarted with the new period.

This project models that core as written:

- `Slomux` (slomux.dfy): the store of `createStore` as a class. It has the state, the
  ordered listener array, and a ghost log of every listener call with the state the
  listener could read. It also holds the forEach loop of `dispatch` and the prop-merge
  rule of `connect`.
- `IntervalApp` (interval_app.dfy): the action object, the action creator
  `changeInterval`, the `reducer`, the two buttons, and the `mapStateToProps` /
  `mapDispatchToProps` functions handed to `connect`.
- `HostTimer` (host_timer.dfy): `setInterval` / `clearInterval` as an abstract table
  of live handle ids with their periods. Each schedule hands out a fresh id. Time
  itself is not modelled; a tick is an explicit event.
- `Stopwatch` (stopwatch.dfy): `TimerComponent` as a class `Timer`. Its fields are
  `currentTime`, `interval`, the connected prop `currentInterval`, and whether it is
  mounted. Each handler and lifecycle hook is a method. Each method's new state is a
  step function of the old snapshot (`TimerState`). The lemmas about those functions
  state which handles stay live. They also cover two corrected operations and the
  invariant those corrections keep.
- `App` (app.dfy): creating the application's store, and the flow of one button press
  from the store to the timer.
- `Wrappers` (wrappers.dfy): `Option` for JavaScript's `null` / `undefined`.

The model follows the code, also where the code departs from what the application
evidently intends:

- `subscribe` returns the new length of the listener array (`push`'s result), not an
  unsubscribe function. Nothing ever removes a listener.
- The reducer adds the payload with no lower bound, so the intervals 0 and below are
  reachable (`IntervalApp.ZeroIntervalReachable`). Nothing rejects such a transition.
- `handleStart` does not clear the previous handle, and the Start button is never
  disabled. A second Start leaks a live handle.
- `componentWillUnmount` clears `this.state.currentInterval`, which does not exist, so
  the live handle survives teardown.

## Model

| member | source | states |
|---|---|---|
| `Slomux.Store.constructor` | src/index.js:13-15 | the store starts with the initial state, the given reducer, no listeners and no calls made |
| `Slomux.Store.GetState` | src/index.js:17 | returns the current state and changes nothing |
| `Slomux.Store.Dispatch` | src/index.js:18-21 | the new state is the reducer applied to the old state and the action; the listener array is unchanged; the calls made are exactly one round over the listeners, each observing the new state |
| `Slomux.Broadcast` | src/index.js:20 | the forEach loop yields exactly one round of calls, in array order |
| `Slomux.Round` | src/index.js:20 | one round has one call per registered entry; entry i is called at position i and observes the given state |
| `Slomux.RoundCallsEachEntryOnce` | src/index.js:20 | in one dispatch a listener is called exactly as many times as it occurs in the array, so once if it was subscribed once |
| `Slomux.Store.Subscribe` | src/index.js:22 | appends the listener at the end even if it is already present; earlier entries, the state and the call log stay unchanged; returns the new length |
| `Slomux.ResubscribedListenerIsCalledAgain` | src/index.js:20-22 | subscribing an already subscribed listener once more adds one more call of it to each later dispatch |
| `Slomux.MergeProps` | src/index.js:36-40 | the merged props have the union of the keys; a key takes the dispatch-props value if present there, else the state-props value, else the own-props value |
| `IntervalApp.ChangeInterval` | src/index.js:73-76 | the action creator builds a `CHANGE_INTERVAL` action carrying `value` as payload |
| `IntervalApp.Reducer` | src/index.js:79-86 | the result is the state, or 1 when it is undefined, moved by the action's delta: the payload for `CHANGE_INTERVAL`, 0 for any other type; `RunIsShift` and `UndefinedStateIsOne` state its properties over runs and for an undefined state |
| `IntervalApp.StoreReducer` | src/index.js:19 | the reducer as `dispatch` calls it on a defined state: the state moved by the action's delta |
| `IntervalApp.UndefinedStateIsOne` | src/index.js:79 | the reducer treats an undefined state exactly like the state 1 |
| `IntervalApp.RunIsShift` | src/index.js:79-86 | after any sequence of dispatches the state is the start state plus the sum of the `CHANGE_INTERVAL` payloads; other actions leave it unchanged; no bound is applied |
| `IntervalApp.ChangeIntervalUndone` | src/index.js:73-86 | `changeInterval(v)` followed by `changeInterval(-v)` gives back the starting state |
| `IntervalApp.Press` | src/index.js:98-99 | the "-" button dispatches `changeInterval(-1)` and the "+" button `changeInterval(1)` |
| `IntervalApp.ButtonsReachEveryInterval` | src/index.js:81-82 | from any interval, repeated presses of one button reach any other interval, including zero and negative ones |
| `IntervalApp.ZeroIntervalReachable` | src/index.js:81-82 | one press of "-" from the initial interval 1 gives the interval 0 |
| `IntervalApp.IntervalStateProps` | src/index.js:108-110 | both `mapStateToProps` lambdas give exactly one prop, `currentInterval`, equal to the store state (also src/index.js:173-175) |
| `IntervalApp.IntervalDispatchProps` | src/index.js:111-113 | the interval control's `mapDispatchToProps` gives exactly one prop, the `changeInterval` callback |
| `IntervalApp.Invoke` | src/index.js:112 | calling the `changeInterval` callback with `value` dispatches `changeInterval(value)`; a number prop dispatches nothing |
| `IntervalApp.TimerDispatchProps` | src/index.js:176 | `() => {}` returns undefined, so the timer gets no dispatch props |
| `IntervalApp.IntervalPropsFollowStore` | src/index.js:106-114 | the interval control sees the store state as `currentInterval`; its `changeInterval(value)` prop dispatches `changeInterval(value)` |
| `IntervalApp.TimerPropsFollowStore` | src/index.js:172-177 | the timer sees the store state as `currentInterval`, overriding any own prop of that name, and keeps its other own props; `() => {}` adds no props |
| `HostTimer.Schedule` | src/index.js:152-159 | `setInterval` hands out a handle distinct from every live one and makes it live with the given period; the other handles are untouched |
| `HostTimer.Cancel` | src/index.js:164 | `clearInterval` makes exactly that handle not live; a null or already cleared handle changes nothing; the other handles keep their periods |
| `HostTimer.CancelIdempotent` | src/index.js:164 | clearing a handle twice has the same effect as clearing it once |
| `HostTimer.Host.constructor` | src/index.js:152 | the host starts with no live timer, so every handle it hands out is fresh |
| `HostTimer.Host.SetInterval` | src/index.js:152-159 | the host's timer table is updated as `Schedule` states and the new handle, distinct from every handle live before, is returned; the table stays valid |
| `HostTimer.Host.ClearInterval` | src/index.js:164 | the host's timer table is updated as `Cancel` states; the table stays valid |
| `Stopwatch.Initial` | src/index.js:118-121 | a new component shows time 0, holds no handle, is mounted, and has the given prop and host timers |
| `Stopwatch.Start` | src/index.js:150-161 | Start makes a fresh handle live with period `currentInterval * 1000`, fixed at this moment, and stores it; it does not clear the handle stored before; the time and the prop are unchanged |
| `Stopwatch.Stop` | src/index.js:163-169 | Stop clears the stored handle, resets the time to 0 and the stored handle to null |
| `Stopwatch.Fire` | src/index.js:153-157 | a tick of a live handle on a mounted component adds the prop `currentInterval` read at firing time; nothing else changes; a dead handle has no effect |
| `Stopwatch.DidUpdate` | src/index.js:123-131 | if the interval prop changed and the previous handle was not null, the stored handle is cleared and a fresh one scheduled with the new period, keeping the time, the prop and the mounted flag; otherwise nothing changes |
| `Stopwatch.Rerender` | src/index.js:123-131 | a re-render with a new interval prop sets the prop and keeps the time and the mounted flag |
| `Stopwatch.Unmount` | src/index.js:133-135 | teardown as written clears no timer: the live handles and the stored handle are unchanged |
| `Stopwatch.StartReplacing` | src/index.js:150-161 | corrected Start: the stored handle is cleared and the only new live handle is the fresh one |
| `Stopwatch.UnmountClearing` | src/index.js:133-135 | corrected teardown: the stored handle is cleared when the component goes away |
| `Stopwatch.Step` | src/index.js:116-170 | one event as the source handles it: an unmounted component is left unchanged, and only a re-render changes the interval prop |
| `Stopwatch.StepCorrected` | src/index.js:116-170 | the same for the corrected Start and teardown: an unmounted component is left unchanged, and only a re-render changes the interval prop |
| `Stopwatch.InitialIsTidy` | src/index.js:118-121 | a newly mounted component owns no live timer, so it satisfies the invariant |
| `Stopwatch.StepKeepsTidyUnlessLeaking` | src/index.js:123-169 | as written, an event keeps the invariant (at most the stored handle is live, and only while mounted) if and only if it is not Start or teardown on a running component |
| `Stopwatch.RerenderKeepsTidy` | src/index.js:123-131 | the restart on an interval change keeps the invariant |
| `Stopwatch.StepCorrectedKeepsTidy` | src/index.js:123-169 | with corrected Start and teardown, every event keeps the invariant |
| `Stopwatch.ReplayCorrectedKeepsTidy` | src/index.js:123-169 | with corrected Start and teardown, no sequence of events ever leaves a stray live timer |
| `Stopwatch.NoTickAfterStop` | src/index.js:163-169 | under the invariant, no tick of any handle changes anything after Stop |
| `Stopwatch.NoTimerAfterCorrectedTeardown` | src/index.js:133-135 | under the invariant, the corrected teardown leaves no live timer |
| `Stopwatch.DoubleStartLeaks` | src/index.js:150-161 | two Starts on a stopped component leave two distinct live handles; after Stop the first is still live, and its tick sets the time to the interval |
| `Stopwatch.TimeRunsAfterStop` | src/index.js:150-169 | Start, Start, Stop and a tick of the first handle leave the time at 1, not 0 |
| `Stopwatch.TeardownLeaksHandle` | src/index.js:133-135 | teardown while running leaves the stored handle live |
| `Stopwatch.RestartKeepsElapsedTime` | src/index.js:123-131 | a new interval while running keeps the elapsed time; the only live handle afterwards is a new one with period `v * 1000` |
| `Stopwatch.StoppedIgnoresNewInterval` | src/index.js:123-131 | a new interval while stopped changes only the prop |
| `Stopwatch.ThreeTicksThenStop` | src/index.js:150-169 | with interval 1: Start and three ticks give time 3; Stop then gives time 0, no stored handle and no live timer |
| `Stopwatch.RestartOnIntervalChange` | src/index.js:123-161 | with interval 1: Start and one tick give 1; raising the interval to 2 keeps 1 and leaves one live handle of period 2000; its tick gives 3, and the old handle no longer fires |
| `Stopwatch.Timer.constructor` | src/index.js:118-121 | the component starts in the initial state over the given host |
| `Stopwatch.Timer.HandleStart` | src/index.js:150-161 | the new component and host state is `Start` of the old |
| `Stopwatch.Timer.HandleStop` | src/index.js:163-169 | the new component and host state is `Stop` of the old |
| `Stopwatch.Timer.Tick` | src/index.js:153-157 | the new component state is `Fire` of the old for that handle |
| `Stopwatch.Timer.ComponentDidUpdate` | src/index.js:123-131 | the new component and host state is `DidUpdate` of the old with the previous prop and handle |
| `Stopwatch.Timer.ReceiveInterval` | src/index.js:123-131 | the new component and host state is `Rerender` of the old with the new prop |
| `Stopwatch.Timer.ComponentWillUnmount` | src/index.js:133-135 | the new component state is `Unmount` of the old |
| `Stopwatch.Timer.HandleStartReplacing` | src/index.js:150-161 | the new component and host state is `StartReplacing` of the old |
| `Stopwatch.Timer.ComponentWillUnmountClearing` | src/index.js:133-135 | the new component and host state is `UnmountClearing` of the old |
| `App.CreateAppStore` | src/index.js:179-183 | the application's store uses the reducer and starts at interval 1 with no listeners |
| `App.PressIntervalButton` | src/index.js:18-20 | a button press moves the store state by exactly -1 or +1 and keeps the listeners; the timer then re-renders with the new state as its prop |

## Left out

- Rendering, JSX, `Provider` and the store context, `forceUpdate` and mounting into the DOM are not modelled. They are UI plumbing and calls into React. A listener call is abstracted to an entry in the store's call log.
- The listener of `connect`'s `componentDidMount` (src/index.js:45-47) is a plain `Subscribe` of a listener id. The re-render it triggers is modelled only for the timer (`Stopwatch.Timer.ReceiveInterval`).
- A listener that dispatches or subscribes while `dispatch` is iterating is not modelled. The source's listeners only force a re-render. `forEach` fixes the length when it is called, so a listener subscribed during a dispatch would first be called on the next one. The model iterates the array as it was when the dispatch began.
- Time and the real behaviour of `setInterval` are not modelled: ticks are explicit events. Host clamping of a zero or negative period is left out too; the period is stored as requested.
- React batches `setState` asynchronously; the model applies each `setState` at once. The `componentDidUpdate` call that follows a `setState` with unchanged props is omitted, because its condition is false there.
- Ticks reaching an unmounted component are ignored, as React ignores `setState` after unmount. `Stopwatch.Step` also delivers no clicks or re-renders to an unmounted component.
- JavaScript numbers are doubles; the model uses unbounded integers. A non-numeric payload or an interval beyond 2^53 is not modelled.
- The markup of `IntervalComponent` and `TimerComponent` is not modelled. Only the actions the buttons dispatch are kept.
- The host is the timer's only user in the model; other pages' timers are not represented.

## Findings

| source | as written | input that shows it | evidently intended | confidence | as-written member | corrected member |
|---|---|---|---|---|---|---|
| src/index.js:150-161 | `handleStart` schedules a new handle without clearing the stored one | Start, Start, Stop, then a tick of the first handle: the time becomes 1 after Stop | at most one live handle per stopwatch; Stop stops all ticking | high (not executed) | `Stopwatch.DoubleStartLeaks` | `Stopwatch.StartReplacing` |
| src/index.js:133-135 | `componentWillUnmount` clears `this.state.currentInterval`, which is undefined | Start, then unmount: the handle stays live | teardown clears `this.state.interval` | high (not executed) | `Stopwatch.TeardownLeaksHandle` | `Stopwatch.UnmountClearing` |

For both rows, `Stopwatch.StepKeepsTidyUnlessLeaking` shows that these two are the only ways the source breaks the invariant. `Stopwatch.ReplayCorrectedKeepsTidy` proves that with both corrections no sequence of events leaves a stray live timer.
