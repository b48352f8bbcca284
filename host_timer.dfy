/**
 * The host's periodic timers (`setInterval` / `clearInterval`), abstracted to a
 * table of live handles and their periods; time itself is not modelled.
 */
module HostTimer {
  import opened Wrappers

  type Handle = nat

  /** The live handles with their periods in milliseconds, and the next id to hand out. */
  datatype Timers = Timers(live: map<Handle, int>, nextId: Handle)

  /** Every live handle was handed out before, so `nextId` is fresh. */
  predicate Fresh(t: Timers)
  {
    forall k :: k in t.live ==> k < t.nextId
  }

  /** No timer is live yet; browsers hand out ids from 1. */
  const NO_TIMERS: Timers := Timers(map[], 1)

  /** `setInterval(callback, period)`: a new handle, distinct from every live one. */
  function Schedule(t: Timers, period: int): (r: (Timers, Handle))
    ensures Fresh(t) ==> r.1 !in t.live && Fresh(r.0)
    ensures r.0.live == t.live[r.1 := period]
  {
    (Timers(t.live[t.nextId := period], t.nextId + 1), t.nextId)
  }

  /**
   * `clearInterval(id)`: the handle stops; a null, undefined or already cleared
   * handle is ignored; nothing else changes.
   */
  function Cancel(t: Timers, id: Option<Handle>): (r: Timers)
    ensures id.Some? ==> id.value !in r.live
    ensures forall k :: k in r.live <==> k in t.live && id != Some(k)
    ensures forall k :: k in r.live ==> r.live[k] == t.live[k]
    ensures r.nextId == t.nextId
    ensures Fresh(t) ==> Fresh(r)
  {
    match id
    case None => t
    case Some(h) => Timers(t.live - {h}, t.nextId)
  }

  /** Clearing a handle twice is the same as clearing it once. */
  lemma CancelIdempotent(t: Timers, id: Option<Handle>)
    ensures Cancel(Cancel(t, id), id) == Cancel(t, id)
  {
  }

  /** The host's timer table, which `setInterval` and `clearInterval` update in place. */
  class Host {
    var timers: Timers

    /** Every live handle was handed out already, so the next one is fresh. */
    ghost predicate Valid()
      reads this
    {
      Fresh(timers)
    }

    constructor ()
      ensures Valid() && timers == NO_TIMERS
    {
      timers := NO_TIMERS;
    }

    method SetInterval(period: int) returns (h: Handle)
      requires Valid()
      modifies this
      ensures Valid() && h !in old(timers).live
      ensures (timers, h) == Schedule(old(timers), period)
    {
      h := timers.nextId;
      timers := Timers(timers.live[h := period], h + 1);
    }

    method ClearInterval(id: Option<Handle>)
      requires Valid()
      modifies this
      ensures Valid()
      ensures timers == Cancel(old(timers), id)
    {
      if id.Some? {
        timers := Timers(timers.live - {id.value}, timers.nextId);
      }
    }
  }
}
