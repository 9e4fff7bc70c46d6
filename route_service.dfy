/**
 * RouteService: a one-slot mailbox for route changes. `setRoute` hands the route to the
 * PUSH_HISTORY listeners when there are any, and otherwise parks it; `getNextHistory` takes the
 * parked route out.
 */
module Route {
  import opened Wrappers
  import opened ObserverModel

  /** `RouteServiceEvent.PUSH_HISTORY`. */
  const PUSH_HISTORY: EventName := "RouteService:pushHistory"

  class RouteService {
    const observer: Observer<string>
    /** `_nextHistory`, the parked route. */
    var nextHistory: Option<string>

    ghost predicate Valid()
      reads this, observer
    {
      observer.Valid()
    }

    constructor ()
      ensures Valid() && fresh(observer)
      ensures observer.regs == [] && observer.emitted == [] && nextHistory == None
    {
      observer := new Observer<string>();
      nextHistory := None;
    }

    /**
     * `on(name, callback)`: exactly one registration is added, last; the result is the handle of
     * the observer's destructor, which removes exactly that registration.
     */
    method On(name: EventName, callback: CallbackId) returns (h: nat)
      requires Valid()
      modifies observer`regs, observer`nextHandle
      ensures Valid()
      ensures observer.regs == old(observer.regs) + [Registration(h, name, callback)]
      ensures Unregister(observer.regs, h) == old(observer.regs)
      ensures Callbacks(observer.regs, name) == Callbacks(old(observer.regs), name) + [callback]
      ensures nextHistory == old(nextHistory)
    {
      h := observer.ListenEvent(name, callback);
    }

    /** The destructor `on` returned for handle `h` (the observer's own). */
    method CallDestructor(h: nat)
      requires Valid()
      modifies observer`regs
      ensures Valid()
      ensures observer.regs == Unregister(old(observer.regs), h)
      ensures (forall r :: r in old(observer.regs) ==> r.handle != h) ==> observer.regs == old(observer.regs)
    {
      observer.Unlisten(h);
    }

    /** `destroy()`: every registration goes; the parked route stays. */
    method Destroy()
      requires Valid()
      modifies observer`regs
      ensures Valid()
      ensures observer.regs == [] && !HasCallbacks(observer.regs, PUSH_HISTORY)
    {
      observer.Destroy();
    }

    /** `getNextHistory()`: returns the parked route and empties the slot. */
    method GetNextHistory() returns (route: Option<string>)
      modifies this`nextHistory
      ensures route == old(nextHistory)
      ensures nextHistory == None
    {
      route := nextHistory;
      nextHistory := None;
    }

    /**
     * `setRoute(value)`: with PUSH_HISTORY listeners, they get `value` and the slot is left as it
     * was; without, `value` is parked, replacing any parked route, and nothing is emitted.
     */
    method SetRoute(value: string)
      requires Valid()
      modifies this`nextHistory, observer`emitted
      ensures Valid()
      ensures HasCallbacks(observer.regs, PUSH_HISTORY) ==>
        observer.emitted == old(observer.emitted) + [Emission(PUSH_HISTORY, value, Callbacks(observer.regs, PUSH_HISTORY))]
        && nextHistory == old(nextHistory)
      ensures !HasCallbacks(observer.regs, PUSH_HISTORY) ==>
        observer.emitted == old(observer.emitted) && nextHistory == Some(value)
    {
      if HasCallbacks(observer.regs, PUSH_HISTORY) {
        observer.TriggerEvent(PUSH_HISTORY, value);
      } else {
        nextHistory := Some(value);
      }
    }
  }

  /** A route set while nobody listens is fetched once; the second fetch finds the slot empty. */
  method ParkedRouteIsFetchedOnce(s: RouteService, value: string) returns (first: Option<string>, second: Option<string>)
    requires s.Valid() && !HasCallbacks(s.observer.regs, PUSH_HISTORY)
    modifies s`nextHistory, s.observer`emitted
    ensures first == Some(value) && second == None
    ensures s.observer.emitted == old(s.observer.emitted)
  {
    s.SetRoute(value);
    first := s.GetNextHistory();
    second := s.GetNextHistory();
  }

  /** After `destroy`, `setRoute` parks the route instead of emitting it. */
  method SetRouteAfterDestroyParks(s: RouteService, value: string)
    requires s.Valid()
    modifies s`nextHistory, s.observer`regs, s.observer`emitted
    ensures s.nextHistory == Some(value)
    ensures s.observer.emitted == old(s.observer.emitted)
  {
    s.Destroy();
    s.SetRoute(value);
  }
}
