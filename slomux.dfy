/**
 * Slomux: the store created by `createStore` and the prop-merging rule of
 * `connect` (src/index.js:13-54).
 */
module Slomux {

  /** The identity of a subscribed listener (a JavaScript function reference). */
  type ListenerId = nat

  /** One call of a listener, together with the store state it can read through `getState`. */
  datatype Notification<S> = Notified(listener: ListenerId, observed: S)

  /** The calls one `dispatch` makes: one per registered entry, in registration order. */
  function Round<S>(listeners: seq<ListenerId>, s: S): (r: seq<Notification<S>>)
    ensures |r| == |listeners|
    ensures forall i :: 0 <= i < |listeners| ==> r[i] == Notified(listeners[i], s)
  {
    if listeners == [] then [] else [Notified(listeners[0], s)] + Round(listeners[1..], s)
  }

  /** How many times `l` occurs in the listener array. */
  function Occurrences(listeners: seq<ListenerId>, l: ListenerId): nat
  {
    if listeners == [] then 0
    else (if listeners[0] == l then 1 else 0) + Occurrences(listeners[1..], l)
  }

  /** How many of the calls in `calls` go to `l`. */
  function CallsTo<S>(calls: seq<Notification<S>>, l: ListenerId): nat
  {
    if calls == [] then 0
    else (if calls[0].listener == l then 1 else 0) + CallsTo(calls[1..], l)
  }

  /** One dispatch calls a listener exactly as many times as it was subscribed. */
  lemma {:induction false} RoundCallsEachEntryOnce<S>(listeners: seq<ListenerId>, s: S, l: ListenerId)
    ensures CallsTo(Round(listeners, s), l) == Occurrences(listeners, l)
  {
    if listeners != [] {
      var r := Round(listeners, s);
      assert r[1..] == Round(listeners[1..], s);
      RoundCallsEachEntryOnce(listeners[1..], s, l);
    }
  }

  lemma {:induction false} OccurrencesAppend(listeners: seq<ListenerId>, x: ListenerId, l: ListenerId)
    ensures Occurrences(listeners + [x], l) == Occurrences(listeners, l) + (if x == l then 1 else 0)
  {
    if listeners != [] {
      assert (listeners + [x])[1..] == listeners[1..] + [x];
      OccurrencesAppend(listeners[1..], x, l);
    }
  }

  /**
   * `subscribe` does not deduplicate: subscribing a listener once more adds one more
   * call of it to every later dispatch.
   */
  lemma ResubscribedListenerIsCalledAgain<S>(listeners: seq<ListenerId>, l: ListenerId, s: S)
    ensures CallsTo(Round(listeners + [l], s), l) == CallsTo(Round(listeners, s), l) + 1
  {
    RoundCallsEachEntryOnce(listeners + [l], s, l);
    RoundCallsEachEntryOnce(listeners, s, l);
    OccurrencesAppend(listeners, l, l);
  }

  /** `listeners.forEach(listener => listener())`: calls every entry, first to last. */
  method Broadcast<S>(listeners: seq<ListenerId>, s: S) returns (calls: seq<Notification<S>>)
    ensures calls == Round(listeners, s)
  {
    calls := [];
    var i := 0;
    while i < |listeners|
      invariant 0 <= i <= |listeners|
      invariant |calls| == i
      invariant forall j :: 0 <= j < i ==> calls[j] == Notified(listeners[j], s)
    {
      calls := calls + [Notified(listeners[i], s)];
      i := i + 1;
    }
  }

  /**
   * The object `createStore(reducer, initialState)` returns, with the closure
   * variables `currentState` and `listeners` as fields. `log` records every listener
   * call made so far, with the state the listener could read.
   */
  class Store<S, A> {
    const reducer: (S, A) -> S
    var state: S
    var listeners: seq<ListenerId>
    ghost var log: seq<Notification<S>>

    constructor (reducer: (S, A) -> S, initialState: S)
      ensures this.reducer == reducer && state == initialState
      ensures listeners == [] && log == []
    {
      this.reducer := reducer;
      state := initialState;
      listeners := [];
      log := [];
    }

    /** `getState`: the current state, with no side effect. */
    method GetState() returns (s: S)
      ensures s == state
    {
      s := state;
    }

    /**
     * `dispatch`: the new state is computed first, then every listener is called once
     * per registration, in order, and each observes the new state.
     */
    method Dispatch(action: A)
      modifies this
      ensures state == reducer(old(state), action)
      ensures listeners == old(listeners)
      ensures log == old(log) + Round(listeners, state)
    {
      state := reducer(state, action);
      var calls := Broadcast(listeners, state);
      log := log + calls;
    }

    /** `subscribe` is `listeners.push(listener)`: it appends and returns the new length. */
    method Subscribe(listener: ListenerId) returns (length: nat)
      modifies this
      ensures listeners == old(listeners) + [listener]
      ensures length == |listeners|
      ensures state == old(state) && log == old(log)
    {
      listeners := listeners + [listener];
      length := |listeners|;
    }
  }

  /**
   * The props `connect`'s wrapper renders with: the spreads of own props, then the
   * state props, then the dispatch props, so a later spread overrides an earlier one.
   */
  function MergeProps<V>(own: map<string, V>, fromState: map<string, V>, fromDispatch: map<string, V>)
    : (r: map<string, V>)
    ensures r.Keys == own.Keys + fromState.Keys + fromDispatch.Keys
    ensures forall k :: k in fromDispatch ==> r[k] == fromDispatch[k]
    ensures forall k :: k in fromState && k !in fromDispatch ==> r[k] == fromState[k]
    ensures forall k :: k in own && k !in fromState && k !in fromDispatch ==> r[k] == own[k]
  {
    own + fromState + fromDispatch
  }
}
