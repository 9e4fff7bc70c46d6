/**
 * The `Observer` collaborator that every service uses for its events, modelled as a
 * registry: an ordered list of registrations (one per `listenEvent` call still in force)
 * and a log of what `triggerEvent` delivered. Callbacks are named by ids; what a callback
 * does when it is called is not part of this model.
 */
module ObserverModel {

  /** Names a callback function that a caller passed to `on`. */
  type CallbackId = nat

  /** Event names are the string values of the services' event enums. */
  type EventName = string

  /** One `listenEvent(event, callback)` call; `handle` identifies the destructor it returned. */
  datatype Registration = Registration(handle: nat, event: EventName, callback: CallbackId)

  /** One `triggerEvent` call: the event, its payload, and the callbacks it reached in order. */
  datatype Emission<P> = Emission(event: EventName, payload: P, recipients: seq<CallbackId>)

  /** `hasCallbacks(e)`: some registration is for event `e`. */
  predicate HasCallbacks(regs: seq<Registration>, e: EventName) {
    exists r :: r in regs && r.event == e
  }

  /** The callbacks registered for `e`, in registration order: those `triggerEvent(e)` calls. */
  function Callbacks(regs: seq<Registration>, e: EventName): (cs: seq<CallbackId>)
    ensures |cs| <= |regs|
    ensures cs == [] <==> !HasCallbacks(regs, e)
  {
    if regs == [] then []
    else
      assert regs == [regs[0]] + regs[1..];
      (if regs[0].event == e then [regs[0].callback] else []) + Callbacks(regs[1..], e)
  }

  /** Registering one more callback puts it last among the callbacks of its event. */
  lemma {:induction false} CallbacksAppend(regs: seq<Registration>, r: Registration, e: EventName)
    ensures Callbacks(regs + [r], e) == Callbacks(regs, e) + (if r.event == e then [r.callback] else [])
  {
    if regs != [] {
      assert (regs + [r])[1..] == regs[1..] + [r];
      CallbacksAppend(regs[1..], r, e);
    }
  }

  /** What calling the destructor of registration `h` leaves: every other registration, in order. */
  function Unregister(regs: seq<Registration>, h: nat): (rest: seq<Registration>)
    ensures |rest| <= |regs|
    ensures forall r :: r in rest <==> r in regs && r.handle != h
  {
    if regs == [] then []
    else
      assert regs == [regs[0]] + regs[1..];
      (if regs[0].handle == h then [] else [regs[0]]) + Unregister(regs[1..], h)
  }

  /** A destructor whose registration is gone (already removed, or cleared by `destroy`) removes nothing. */
  lemma {:induction false} UnregisterAbsent(regs: seq<Registration>, h: nat)
    requires forall r :: r in regs ==> r.handle != h
    ensures Unregister(regs, h) == regs
  {
    if regs != [] {
      assert regs[0] in regs;
      UnregisterAbsent(regs[1..], h);
    }
  }

  /** The destructor of the newest registration removes exactly that registration. */
  lemma {:induction false} UnregisterNewest(regs: seq<Registration>, r: Registration)
    requires forall x :: x in regs ==> x.handle < r.handle
    ensures Unregister(regs + [r], r.handle) == regs
  {
    if regs == [] {
      assert [r][1..] == [];
    } else {
      assert regs[0] in regs;
      assert (regs + [r])[1..] == regs[1..] + [r];
      UnregisterNewest(regs[1..], r);
    }
  }

  /** The observer of one service: its registrations and what it has delivered. */
  class Observer<P> {
    var regs: seq<Registration>
    var nextHandle: nat
    var emitted: seq<Emission<P>>

    /** Every registration's handle was issued before, so a new handle is unique. */
    ghost predicate Valid()
      reads this
    {
      forall r :: r in regs ==> r.handle < nextHandle
    }

    constructor ()
      ensures Valid()
      ensures regs == [] && emitted == [] && nextHandle == 0
    {
      regs := [];
      nextHandle := 0;
      emitted := [];
    }

    /** `listenEvent(e, callback)`: registers last and returns the handle of its destructor. */
    method ListenEvent(e: EventName, callback: CallbackId) returns (h: nat)
      requires Valid()
      modifies this`regs, this`nextHandle
      ensures Valid()
      ensures h == old(nextHandle) && nextHandle == h + 1
      ensures regs == old(regs) + [Registration(h, e, callback)]
      ensures Unregister(regs, h) == old(regs)
      ensures Callbacks(regs, e) == Callbacks(old(regs), e) + [callback]
    {
      h := nextHandle;
      UnregisterNewest(regs, Registration(h, e, callback));
      CallbacksAppend(regs, Registration(h, e, callback), e);
      regs := regs + [Registration(h, e, callback)];
      nextHandle := nextHandle + 1;
    }

    /** The destructor returned for handle `h`. */
    method Unlisten(h: nat)
      requires Valid()
      modifies this`regs
      ensures Valid()
      ensures regs == Unregister(old(regs), h)
      ensures (forall r :: r in old(regs) ==> r.handle != h) ==> regs == old(regs)
    {
      if forall r :: r in regs ==> r.handle != h {
        UnregisterAbsent(regs, h);
      }
      regs := Unregister(regs, h);
    }

    /** `triggerEvent(e, payload)`: calls every callback of `e`, in registration order. */
    method TriggerEvent(e: EventName, payload: P)
      modifies this`emitted
      ensures emitted == old(emitted) + [Emission(e, payload, Callbacks(regs, e))]
    {
      emitted := emitted + [Emission(e, payload, Callbacks(regs, e))];
    }

    /** `destroy()`: drops every registration. */
    method Destroy()
      requires Valid()
      modifies this`regs
      ensures Valid()
      ensures regs == []
    {
      regs := [];
    }
  }
}
