/**
 * The data flow of the mounted application: a button of the interval control
 * dispatches, the store notifies, and the connected timer re-renders with the
 * new interval prop (src/index.js:18-20, 98-99, 123-131, 172-177).
 */
module App {
  import opened IntervalApp
  import Slomux
  import opened Stopwatch

  /** The interval the application's store starts from (`initialInterval`). */
  const INITIAL_INTERVAL: int := 1

  /** `createStore(reducer, initialInterval)`. */
  method CreateAppStore() returns (store: Slomux.Store<int, Action>)
    ensures store.reducer == StoreReducer && store.state == INITIAL_INTERVAL
    ensures store.listeners == [] && fresh(store)
  {
    store := new Slomux.Store(StoreReducer, INITIAL_INTERVAL);
  }

  /**
   * A click on "-" or "+": the store's state moves by one, unbounded, and the timer's
   * prop follows it, restarting a running tick with the new period.
   */
  method PressIntervalButton(store: Slomux.Store<int, Action>, timer: Timer, b: Button)
    requires store.reducer == StoreReducer && timer.host.Valid()
    modifies store, timer, timer.host
    ensures timer.host.Valid()
    ensures store.state == old(store.state) + (if b == Minus then -1 else 1)
    ensures store.listeners == old(store.listeners)
    ensures timer.Snapshot() == Rerender(old(timer.Snapshot()), store.state)
  {
    store.Dispatch(Press(b));
    var s := store.GetState();
    timer.ReceiveInterval(s);
  }
}
