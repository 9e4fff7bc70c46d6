/**
 * WindowSizeService: a debounced window-resize notifier. While it has RESIZED listeners it
 * keeps one resize handler on `window`; each resize restarts a 200 ms timeout, and when the
 * timeout fires the listeners get one RESIZED event. Time is abstracted: the window's resize
 * events are Resize() and a timeout expiring is TimerFires().
 */
module WindowSize {
  import opened ObserverModel

  /** `WindowSizeServiceEvent.RESIZED`. */
  const RESIZED: EventName := "WindowSizeService:resized"

  class WindowSizeService {
    /** `typeof window !== 'undefined'`. */
    const hasWindow: bool
    /** RESIZED events carry no payload. */
    const observer: Observer<()>
    /** `_handleResize !== undefined`. */
    var handlerInstalled: bool
    /** Resize listeners this service has added to `window` and not removed. */
    var windowResizeListeners: nat
    /** `_resizeTimeout !== undefined`; it stays defined after its timeout fires. */
    var timeoutHeld: bool
    /** The held timeout has neither fired nor been cleared. */
    var heldTimeoutPending: bool
    /** Timeouts this service has scheduled that have neither fired nor been cleared. */
    var pendingTimeouts: nat
    /**
     * For each destructor `on` has returned, indexed by the handle of its registration: the
     * `resizeCheck` its closure captured (whether it was registered for RESIZED).
     */
    var destructors: map<nat, bool>

    /**
     * At most one handler is on `window`, and only if there is a window; at most one timeout is
     * pending, and it is the held one; while RESIZED has listeners, the handler is installed.
     */
    ghost predicate Valid()
      reads this, observer
    {
      observer.Valid()
      && windowResizeListeners == (if handlerInstalled then 1 else 0)
      && (handlerInstalled ==> hasWindow)
      && pendingTimeouts == (if heldTimeoutPending then 1 else 0)
      && (heldTimeoutPending ==> timeoutHeld)
      && (hasWindow && HasCallbacks(observer.regs, RESIZED) ==> handlerInstalled)
    }

    constructor (hasWindow: bool)
      ensures Valid() && fresh(observer)
      ensures this.hasWindow == hasWindow
      ensures observer.regs == [] && observer.emitted == []
      ensures !handlerInstalled && !timeoutHeld && pendingTimeouts == 0
      ensures destructors == map[]
    {
      this.hasWindow := hasWindow;
      observer := new Observer<()>();
      handlerInstalled := false;
      windowResizeListeners := 0;
      timeoutHeld := false;
      heldTimeoutPending := false;
      pendingTimeouts := 0;
      destructors := map[];
    }

    /**
     * `on(name, callback)`: the first RESIZED listener installs the handler (when there is a
     * window and none is installed); the callback is registered last. The result is the handle
     * of the destructor, which remembers whether `name` was RESIZED.
     */
    method On(name: EventName, callback: CallbackId) returns (h: nat)
      requires Valid()
      modifies this`handlerInstalled, this`windowResizeListeners, this`destructors,
               observer`regs, observer`nextHandle
      ensures Valid()
      ensures h == old(observer.nextHandle)
      ensures destructors == old(destructors)[h := name == RESIZED]
      ensures observer.regs == old(observer.regs) + [Registration(h, name, callback)]
      ensures Unregister(observer.regs, h) == old(observer.regs)
      ensures handlerInstalled ==
        (old(handlerInstalled) || (name == RESIZED && !HasCallbacks(old(observer.regs), RESIZED) && hasWindow))
      ensures name == RESIZED && hasWindow ==> handlerInstalled
    {
      // The closure `on` returns captures `resizeCheck`.
      destructors := destructors[observer.nextHandle := name == RESIZED];
      if name == RESIZED && !HasCallbacks(observer.regs, RESIZED) {
        StartListeningResize();
      }
      ghost var before := observer.regs;
      h := observer.ListenEvent(name, callback);
      assert HasCallbacks(observer.regs, RESIZED) ==> HasCallbacks(before, RESIZED) || name == RESIZED;
    }

    /**
     * Calls the destructor that `on` returned for `handle`: its registration is removed; when it
     * was for RESIZED and no RESIZED listener remains, the pending timeout is cancelled and the
     * handler removed.
     */
    method CallDestructor(handle: nat)
      requires Valid()
      requires handle in destructors  // only `on` hands out destructors
      modifies this`handlerInstalled, this`windowResizeListeners, this`timeoutHeld,
               this`heldTimeoutPending, this`pendingTimeouts, observer`regs
      ensures Valid()
      ensures observer.regs == Unregister(old(observer.regs), handle)
      ensures (forall r :: r in old(observer.regs) ==> r.handle != handle) ==> observer.regs == old(observer.regs)
      ensures if destructors[handle] && !HasCallbacks(observer.regs, RESIZED) then
          !handlerInstalled && windowResizeListeners == 0 && !timeoutHeld && pendingTimeouts == 0
        else
          handlerInstalled == old(handlerInstalled) && windowResizeListeners == old(windowResizeListeners)
          && timeoutHeld == old(timeoutHeld) && heldTimeoutPending == old(heldTimeoutPending)
          && pendingTimeouts == old(pendingTimeouts)
    {
      observer.Unlisten(handle);
      if destructors[handle] && !HasCallbacks(observer.regs, RESIZED) {
        StopListeningResize();
      }
    }

    /** `destroy()`: drops every listener; the handler and a pending timeout stay. */
    method Destroy()
      requires Valid()
      modifies observer`regs
      ensures Valid()
      ensures observer.regs == []
    {
      observer.Destroy();
    }

    /** `_onResize()`: cancels the held timeout, if any, and schedules a new one. */
    method OnResize()
      requires Valid()
      modifies this`timeoutHeld, this`heldTimeoutPending, this`pendingTimeouts
      ensures Valid()
      ensures timeoutHeld && heldTimeoutPending && pendingTimeouts == 1
    {
      if timeoutHeld {
        ClearHeldTimeout();
        timeoutHeld := false;
      }
      timeoutHeld := true;
      heldTimeoutPending := true;
      pendingTimeouts := pendingTimeouts + 1;
    }

    /** `clearTimeout` on the held timeout: a timeout that already fired is not pending. */
    method ClearHeldTimeout()
      requires Valid()
      modifies this`heldTimeoutPending, this`pendingTimeouts
      ensures pendingTimeouts == 0 && !heldTimeoutPending
    {
      if heldTimeoutPending {
        heldTimeoutPending := false;
        pendingTimeouts := pendingTimeouts - 1;
      }
    }

    /** `_startListeningResize()`: installs the handler once, and only when there is a window. */
    method StartListeningResize()
      requires Valid()
      modifies this`handlerInstalled, this`windowResizeListeners
      ensures Valid()
      ensures handlerInstalled == (old(handlerInstalled) || hasWindow)
      ensures windowResizeListeners == (if handlerInstalled then 1 else 0)
    {
      if !handlerInstalled && hasWindow {
        handlerInstalled := true;
        windowResizeListeners := windowResizeListeners + 1;
      }
    }

    /**
     * `_stopListeningResize()`: safe whatever is installed or pending; afterwards no timeout is
     * pending or held and no handler is installed.
     */
    method StopListeningResize()
      requires Valid()
      modifies this`handlerInstalled, this`windowResizeListeners, this`timeoutHeld,
               this`heldTimeoutPending, this`pendingTimeouts
      ensures !handlerInstalled && windowResizeListeners == 0
      ensures !timeoutHeld && !heldTimeoutPending && pendingTimeouts == 0
    {
      if timeoutHeld {
        ClearHeldTimeout();
        timeoutHeld := false;
      }
      if handlerInstalled && hasWindow {
        windowResizeListeners := windowResizeListeners - 1;
        handlerInstalled := false;
      }
    }

    /** The window dispatches a resize event: the installed handler, if any, runs `_onResize`. */
    method Resize()
      requires Valid()
      modifies this`timeoutHeld, this`heldTimeoutPending, this`pendingTimeouts
      ensures Valid()
      ensures old(handlerInstalled) ==> timeoutHeld && heldTimeoutPending && pendingTimeouts == 1
      ensures !old(handlerInstalled) ==>
        timeoutHeld == old(timeoutHeld) && heldTimeoutPending == old(heldTimeoutPending)
        && pendingTimeouts == old(pendingTimeouts)
    {
      if handlerInstalled {
        OnResize();
      }
    }

    /** The pending timeout, if any, fires: RESIZED goes once to the listeners registered now. */
    method TimerFires()
      requires Valid()
      modifies this`heldTimeoutPending, this`pendingTimeouts, observer`emitted
      ensures Valid()
      ensures !heldTimeoutPending && pendingTimeouts == 0
      ensures observer.emitted == old(observer.emitted)
        + (if old(heldTimeoutPending) then [Emission(RESIZED, (), Callbacks(observer.regs, RESIZED))] else [])
    {
      if heldTimeoutPending {
        heldTimeoutPending := false;
        pendingTimeouts := 0;
        observer.TriggerEvent(RESIZED, ());
      }
    }
  }

  /**
   * A burst of `n` resize events followed by the timeout firing, with the handler installed:
   * nothing is emitted during the burst and exactly one RESIZED afterwards.
   */
  method ResizeBurstEmitsOnce(s: WindowSizeService, n: nat)
    requires s.Valid() && s.handlerInstalled && n >= 1
    modifies s`timeoutHeld, s`heldTimeoutPending, s`pendingTimeouts, s.observer`emitted
    ensures s.Valid()
    ensures s.observer.emitted == old(s.observer.emitted) + [Emission(RESIZED, (), Callbacks(s.observer.regs, RESIZED))]
    ensures s.pendingTimeouts == 0
  {
    var i := 0;
    while i < n
      invariant 0 <= i <= n
      invariant s.Valid() && s.handlerInstalled
      invariant s.observer.emitted == old(s.observer.emitted)
      invariant i > 0 ==> s.heldTimeoutPending && s.pendingTimeouts == 1
    {
      s.Resize();
      i := i + 1;
    }
    s.TimerFires();
  }
}
