/**
 * The application's actions, action creator, reducer and the `mapStateToProps` /
 * `mapDispatchToProps` functions handed to `connect` (src/index.js:67-114, 172-177).
 */
module IntervalApp {
  import opened Wrappers
  import Slomux

  const CHANGE_INTERVAL: string := "CHANGE_INTERVAL"

  /** An action object `{ type, payload }`. */
  datatype Action = Action(kind: string, payload: int)

  /** The action creator `changeInterval(value)`. */
  function ChangeInterval(value: int): (a: Action)
    ensures a.kind == CHANGE_INTERVAL && a.payload == value
  {
    Action(CHANGE_INTERVAL, value)
  }

  /**
   * `reducer(state = 1, action)`: `CHANGE_INTERVAL` adds the payload with no bound,
   * every other type leaves the state as it is. `None` stands for an undefined state,
   * which the default parameter turns into 1; the store never holds `null`, so the
   * different behaviour of a `null` state is not modelled.
   */
  function Reducer(state: Option<int>, action: Action): (r: int)
    ensures r == state.GetOr(1) + Delta(action)
  {
    var s := state.GetOr(1);
    if action.kind == CHANGE_INTERVAL then s + action.payload else s
  }

  /** The reducer as the store calls it: its state is always defined. */
  function StoreReducer(s: int, action: Action): (r: int)
    ensures r == s + Delta(action)
  {
    Reducer(Some(s), action)
  }

  /** An undefined state behaves exactly like the state 1. */
  lemma UndefinedStateIsOne(action: Action)
    ensures Reducer(None, action) == Reducer(Some(1), action)
  {
  }

  /** The store's state after dispatching `actions` in order. */
  function Run(s: int, actions: seq<Action>): int
    decreases |actions|
  {
    if actions == [] then s else Run(StoreReducer(s, actions[0]), actions[1..])
  }

  /** The part of an action's payload the reducer applies. */
  function Delta(a: Action): int
  {
    if a.kind == CHANGE_INTERVAL then a.payload else 0
  }

  /** The total of the `CHANGE_INTERVAL` payloads in `actions`. */
  function Shift(actions: seq<Action>): int
  {
    if actions == [] then 0 else Delta(actions[0]) + Shift(actions[1..])
  }

  /**
   * Any run of dispatches moves the state by exactly the sum of the interval
   * changes, whatever their signs, and other actions leave it alone.
   */
  lemma {:induction false} RunIsShift(s: int, actions: seq<Action>)
    ensures Run(s, actions) == s + Shift(actions)
    decreases |actions|
  {
    if actions != [] {
      RunIsShift(StoreReducer(s, actions[0]), actions[1..]);
    }
  }

  /** `changeInterval(v)` followed by `changeInterval(-v)` returns to the starting state. */
  lemma ChangeIntervalUndone(s: int, v: int)
    ensures Run(s, [ChangeInterval(v), ChangeInterval(-v)]) == s
  {
    var actions := [ChangeInterval(v), ChangeInterval(-v)];
    RunIsShift(s, actions);
    assert actions[1..] == [ChangeInterval(-v)];
    assert actions[1..][1..] == [];
    assert Shift(actions[1..]) == -v + Shift([]);
    assert Shift(actions) == v + Shift(actions[1..]);
  }

  /** The two buttons of the interval control. */
  datatype Button = Minus | Plus

  /** `onClick` of a button: `changeInterval(-1)` or `changeInterval(1)` is dispatched. */
  function Press(b: Button): (a: Action)
    ensures a == ChangeInterval(if b == Minus then -1 else 1)
  {
    match b
    case Minus => ChangeInterval(-1)
    case Plus => ChangeInterval(1)
  }

  /** `n` presses of button `b`. */
  function Presses(b: Button, n: nat): seq<Action>
  {
    if n == 0 then [] else [Press(b)] + Presses(b, n - 1)
  }

  lemma {:induction false} PressesShift(b: Button, n: nat)
    ensures Shift(Presses(b, n)) == if b == Minus then -(n as int) else n
  {
    if n > 0 {
      assert Presses(b, n)[1..] == Presses(b, n - 1);
      PressesShift(b, n - 1);
    }
  }

  /**
   * Nothing bounds the interval: from any interval the buttons reach any other,
   * zero and negative ones included.
   */
  lemma ButtonsReachEveryInterval(from: int, to: int)
    ensures Run(from, Presses(if to < from then Minus else Plus, if to < from then from - to else to - from)) == to
  {
    var b := if to < from then Minus else Plus;
    var n := if to < from then from - to else to - from;
    RunIsShift(from, Presses(b, n));
    PressesShift(b, n);
  }

  /** From the initial interval 1, one press of "-" gives the interval 0. */
  lemma ZeroIntervalReachable()
    ensures Run(1, [Press(Minus)]) == 0
  {
  }

  /** A prop value: a number, or the `changeInterval` callback that dispatches. */
  datatype Prop = Number(n: int) | ChangeIntervalCallback

  /** Both `mapStateToProps` lambdas: `state => ({ currentInterval: state })`. */
  function IntervalStateProps(state: int): (r: map<string, Prop>)
    ensures r.Keys == {"currentInterval"} && r["currentInterval"] == Number(state)
  {
    map["currentInterval" := Number(state)]
  }

  /** The interval control's `mapDispatchToProps`: a `changeInterval` callback. */
  function IntervalDispatchProps(): (r: map<string, Prop>)
    ensures r.Keys == {"changeInterval"} && r["changeInterval"] == ChangeIntervalCallback
  {
    map["changeInterval" := ChangeIntervalCallback]
  }

  /** The timer's `mapDispatchToProps` is `() => {}`, which returns undefined: no props. */
  function TimerDispatchProps(): (r: map<string, Prop>)
    ensures r.Keys == {}
  {
    map[]
  }

  /** What calling a prop with `value` dispatches, if it is the callback. */
  function Invoke(p: Prop, value: int): (r: Option<Action>)
    ensures r.Some? <==> p == ChangeIntervalCallback
    ensures r.Some? ==> r.value == ChangeInterval(value)
  {
    match p
    case ChangeIntervalCallback => Some(ChangeInterval(value))
    case Number(_) => None
  }

  /**
   * The timer component always sees the store state as `currentInterval`, whatever
   * its parent passes, and keeps every other own prop.
   */
  lemma TimerPropsFollowStore(own: map<string, Prop>, state: int)
    ensures var p := Slomux.MergeProps(own, IntervalStateProps(state), TimerDispatchProps());
      && p.Keys == own.Keys + {"currentInterval"}
      && p["currentInterval"] == Number(state)
      && forall k :: k in own && k != "currentInterval" ==> p[k] == own[k]
  {
  }

  /**
   * The interval control sees the store state as `currentInterval` and gets a
   * `changeInterval` that dispatches `changeInterval(value)`.
   */
  lemma IntervalPropsFollowStore(own: map<string, Prop>, state: int, value: int)
    ensures var p := Slomux.MergeProps(own, IntervalStateProps(state), IntervalDispatchProps());
      && p["currentInterval"] == Number(state)
      && Invoke(p["changeInterval"], value) == Some(ChangeInterval(value))
  {
  }
}
