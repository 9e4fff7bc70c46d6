/**
 * ThemeService: picks the colour scheme from three ranked sources (an in-process override,
 * the value persisted by ThemeLocalStorageService, the operating system's value reported by
 * WindowService) and tells its COLOR_SCHEME_CHANGED listeners when the effective scheme
 * changes. While it has listeners it subscribes to three upstream services: WindowService
 * (OS scheme changes), ThemeLocalStorageService (storage changes) and WindowEventService
 * (messages from other windows and frames).
 *
 * The upstream services are plain state here: the stored scheme, the OS scheme, and for each
 * upstream service the number of subscriptions the ThemeService has attached to it. Their
 * change notifications are the methods OsSchemeChanged, StoredSchemeChanged and
 * MessageReceived.
 */
module Theme {
  import opened Wrappers
  import opened ObserverModel

  datatype ColorScheme = Light | Dark

  /** `ThemeServiceEvent.COLOR_SCHEME_CHANGED`, the only event `on` accepts. */
  const COLOR_SCHEME_CHANGED: EventName := "ThemeService:colorSchemeChanged"

  /** `ThemeServiceMessageType.COLOR_SCHEME_CHANGED`, the type tag of cross-window messages. */
  const COLOR_SCHEME_CHANGED_MESSAGE: string := "fi.nor.ui.ThemeService:colorSchemeChanged"

  /** The errors ThemeService throws. */
  datatype ThemeError =
    | UnsupportedEventName(name: EventName)  // `on` with a name other than COLOR_SCHEME_CHANGED
    | DestructorAlreadyCalled                // a destructor called again: its inner destructor is undefined

  /** The `value` property of an inbound message. */
  datatype MessageValue =
    | ValueUndefined             // missing, or `undefined`
    | ValueScheme(scheme: ColorScheme)  // a value `isColorScheme` accepts
    | ValueOther                 // anything else, `null` included

  /**
   * An inbound message as WindowEventService delivers it. `Truthy` is any truthy value; its
   * `typeTag` is the `type` property when that is a string, and None when it is missing or
   * not a string (which is also what a truthy primitive has).
   */
  datatype InboundMessage =
    | Falsy
    | Truthy(typeTag: Option<string>, value: MessageValue)

  /** `isThemeChangeMessageDTO`. */
  predicate IsThemeChangeMessage(m: InboundMessage) {
    m.Truthy?
    && m.typeTag == Some(COLOR_SCHEME_CHANGED_MESSAGE)
    && (m.value.ValueUndefined? || m.value.ValueScheme?)
  }

  /** The `value` of a validated message: the scheme it asks for, None to clear the override. */
  function MessageScheme(m: InboundMessage): Option<ColorScheme>
    requires IsThemeChangeMessage(m)
  {
    if m.value.ValueScheme? then Some(m.value.scheme) else None
  }

  /**
   * The message `setRemoteColorScheme(value, ...)` posts, as the receiver reads it back
   * (`unsetRemoteColorScheme` posts RemoteMessage(None)). It always passes the validator and
   * carries `value` back.
   */
  function RemoteMessage(value: Option<ColorScheme>): (m: InboundMessage)
    ensures IsThemeChangeMessage(m) && MessageScheme(m) == value
  {
    Truthy(Some(COLOR_SCHEME_CHANGED_MESSAGE),
           if value.Some? then ValueScheme(value.value) else ValueUndefined)
  }

  /** The validator accepts exactly the messages `setRemoteColorScheme` can build. */
  lemma ThemeChangeMessagesAreRemoteMessages(m: InboundMessage)
    ensures IsThemeChangeMessage(m) <==> exists v :: m == RemoteMessage(v)
  {
    if IsThemeChangeMessage(m) {
      assert m == RemoteMessage(MessageScheme(m));
    }
  }

  /**
   * The ThemeService's subscription to one upstream service. `attached` counts the
   * subscriptions attached at the upstream service; `held` says whether the ThemeService still
   * holds a destructor (the `_windowServiceListener`-style field is defined).
   */
  datatype Upstream = Upstream(attached: nat, held: bool) {
    /** A held destructor belongs to an attached subscription. */
    predicate Valid() {
      held ==> attached >= 1
    }

    /** `_start*`: subscribe once more and keep the new destructor, overwriting any held one. */
    function Attach(): Upstream {
      Upstream(attached + 1, true)
    }

    /**
     * The `_start*` the code evidently intends: subscribe only when no destructor is held, so a
     * held destructor is never overwritten.
     */
    function AttachOnce(): (u: Upstream)
      requires Valid()
      ensures u.Valid() && u.held
      ensures u.attached == (if held then attached else attached + 1)
    {
      if held then this else Attach()
    }

    /** `_remove*`: when a destructor is held, call it and forget it. */
    function Detach(): Upstream
      requires Valid()
    {
      if held then Upstream(attached - 1, false) else this
    }
  }

  /** `n` copies of `e`: what `n` identical handler runs emit. */
  function Repeat<T>(e: T, n: nat): (s: seq<T>)
    ensures |s| == n && forall i :: 0 <= i < n ==> s[i] == e
  {
    seq(n, _ => e)
  }

  class ThemeService {
    const observer: Observer<ColorScheme>
    /** `_colorScheme`, the in-process override. */
    var colorScheme: Option<ColorScheme>
    /** What ThemeLocalStorageService holds. */
    var storedScheme: Option<ColorScheme>
    /** Every `ThemeLocalStorageService.setColorScheme` call made, in order. */
    var storageWrites: seq<Option<ColorScheme>>
    /** What WindowService reports. */
    var osScheme: ColorScheme
    var windowService: Upstream
    var localStorage: Upstream
    var windowEvents: Upstream
    /** Handles of the destructors returned by `on` that have been called already. */
    var calledDestructors: set<nat>

    ghost predicate Valid()
      reads this, observer
    {
      observer.Valid() && windowService.Valid() && localStorage.Valid() && windowEvents.Valid()
      && (forall h :: h in calledDestructors ==> h < observer.nextHandle)
    }

    /** The service as the page loads it: no override, no listeners, no subscriptions. */
    constructor (stored: Option<ColorScheme>, os: ColorScheme)
      ensures Valid() && fresh(observer)
      ensures observer.regs == [] && observer.emitted == [] && observer.nextHandle == 0
      ensures colorScheme == None && storedScheme == stored && osScheme == os && storageWrites == []
      ensures windowService == localStorage == windowEvents == Upstream(0, false)
      ensures calledDestructors == {}
    {
      observer := new Observer<ColorScheme>();
      colorScheme := None;
      storedScheme := stored;
      storageWrites := [];
      osScheme := os;
      windowService := Upstream(0, false);
      localStorage := Upstream(0, false);
      windowEvents := Upstream(0, false);
      calledDestructors := {};
    }

    /** `getColorScheme()`: the override, else the stored scheme, else the OS scheme. */
    function GetColorScheme(): (r: ColorScheme)
      reads this
      ensures colorScheme.Some? ==> r == colorScheme.value
      ensures colorScheme.None? && storedScheme.Some? ==> r == storedScheme.value
      ensures colorScheme.None? && storedScheme.None? ==> r == osScheme
    {
      colorScheme.GetOr(storedScheme.GetOr(osScheme))
    }

    /** `hasDarkMode()`. */
    predicate HasDarkMode()
      reads this
    {
      GetColorScheme() == Dark
    }

    /** `hasLightMode()`. */
    predicate HasLightMode()
      reads this
    {
      GetColorScheme() == Light
    }

    /** Exactly one of dark and light mode holds, whichever source decides. */
    lemma ExactlyOneMode()
      ensures HasDarkMode() != HasLightMode()
      ensures HasDarkMode() <==> GetColorScheme() == Dark
    {
    }

    /**
     * The effect of `setColorScheme(value)`: nothing when `value` is the override already;
     * otherwise the override becomes `value`, storage is written when it differs, and the
     * listeners, if any, get one COLOR_SCHEME_CHANGED with `value` or, when clearing, the OS
     * scheme.
     */
    twostate predicate AppliedColorScheme(value: Option<ColorScheme>)
      reads this, observer
    {
      if old(colorScheme) == value then
        colorScheme == old(colorScheme)
        && storedScheme == old(storedScheme)
        && storageWrites == old(storageWrites)
        && observer.emitted == old(observer.emitted)
      else
        colorScheme == value
        && storedScheme == value
        && storageWrites == old(storageWrites) + (if old(storedScheme) != value then [value] else [])
        && observer.emitted == old(observer.emitted)
             + (if HasCallbacks(observer.regs, COLOR_SCHEME_CHANGED)
                then [Emission(COLOR_SCHEME_CHANGED, value.GetOr(osScheme),
                               Callbacks(observer.regs, COLOR_SCHEME_CHANGED))]
                else [])
    }

    /** `setColorScheme(value)`. The scheme it emits is the new effective scheme. */
    method SetColorScheme(value: Option<ColorScheme>)
      requires Valid()
      modifies this`colorScheme, this`storedScheme, this`storageWrites, observer`emitted
      ensures Valid()
      ensures AppliedColorScheme(value)
      ensures |observer.emitted| > |old(observer.emitted)| ==> observer.emitted[|observer.emitted| - 1].payload == GetColorScheme()
    {
      if colorScheme != value {
        colorScheme := value;
        if storedScheme != value {
          storedScheme := value;
          storageWrites := storageWrites + [value];
        }
        if HasCallbacks(observer.regs, COLOR_SCHEME_CHANGED) {
          if value.None? {
            observer.TriggerEvent(COLOR_SCHEME_CHANGED, osScheme);
          } else {
            observer.TriggerEvent(COLOR_SCHEME_CHANGED, value.value);
          }
        }
      }
    }

    /**
     * `on(name, callback)`: an unsupported name throws and changes nothing. Otherwise, when no
     * override is set, one more subscription is attached to each upstream service (whether or
     * not one is attached already), and the callback is registered; the result is the handle of
     * the destructor, which removes exactly this registration.
     */
    method On(name: EventName, callback: CallbackId) returns (r: Result<nat, ThemeError>)
      requires Valid()
      modifies this`windowService, this`localStorage, this`windowEvents, observer`regs, observer`nextHandle
      ensures Valid()
      ensures name != COLOR_SCHEME_CHANGED ==>
        r == Err(UnsupportedEventName(name)) && observer.regs == old(observer.regs)
        && observer.nextHandle == old(observer.nextHandle)
      ensures name == COLOR_SCHEME_CHANGED ==>
        r == Ok(old(observer.nextHandle)) && observer.nextHandle == r.value + 1
        && observer.regs == old(observer.regs) + [Registration(r.value, name, callback)]
        && Unregister(observer.regs, r.value) == old(observer.regs)
      ensures if name == COLOR_SCHEME_CHANGED && old(colorScheme).None? then
          windowService == old(windowService).Attach()
          && localStorage == old(localStorage).Attach()
          && windowEvents == old(windowEvents).Attach()
        else
          windowService == old(windowService)
          && localStorage == old(localStorage)
          && windowEvents == old(windowEvents)
    {
      if name == COLOR_SCHEME_CHANGED {
        if colorScheme.None? {
          StartWindowServiceListener();
          StartLocalStorageListener();
          StartWindowEventServiceListener();
        }
        assert Valid();
        var h := observer.ListenEvent(name, callback);
        r := Ok(h);
      } else {
        r := Err(UnsupportedEventName(name));
      }
    }

    /**
     * Calls the destructor that a successful `on` returned for `handle`. The first call removes the
     * registration; a second call throws, because the closure has cleared its inner destructor.
     * Either way, when no listener remains, all three upstream subscriptions the service still
     * holds are detached.
     */
    method CallDestructor(handle: nat) returns (r: Outcome<ThemeError>)
      requires Valid()
      requires handle < observer.nextHandle  // only `on` hands out destructors
      modifies this`windowService, this`localStorage, this`windowEvents, this`calledDestructors, observer`regs
      ensures Valid()
      ensures calledDestructors == old(calledDestructors) + {handle}
      ensures handle in old(calledDestructors) ==>
        r == Fail(DestructorAlreadyCalled) && observer.regs == old(observer.regs)
      ensures handle !in old(calledDestructors) ==>
        r == Pass && observer.regs == Unregister(old(observer.regs), handle)
      ensures if HasCallbacks(observer.regs, COLOR_SCHEME_CHANGED) then
          windowService == old(windowService)
          && localStorage == old(localStorage)
          && windowEvents == old(windowEvents)
        else
          windowService == old(windowService).Detach()
          && localStorage == old(localStorage).Detach()
          && windowEvents == old(windowEvents).Detach()
    {
      if handle in calledDestructors {
        r := Fail(DestructorAlreadyCalled);
      } else {
        observer.Unlisten(handle);
        calledDestructors := calledDestructors + {handle};
        r := Pass;
      }
      if !HasCallbacks(observer.regs, COLOR_SCHEME_CHANGED) {
        RemoveWindowServiceListener();
        RemoveLocalStorageListener();
        RemoveWindowEventServiceListener();
      }
    }

    /**
     * `destroy()`: clears the override and detaches the WindowService and storage
     * subscriptions. The message subscription and the listeners stay as they are.
     */
    method Destroy()
      requires Valid()
      modifies this`windowService, this`localStorage, this`colorScheme
      ensures Valid()
      ensures colorScheme == None
      ensures windowService == old(windowService).Detach()
      ensures localStorage == old(localStorage).Detach()
    {
      RemoveWindowServiceListener();
      RemoveLocalStorageListener();
      colorScheme := None;
    }

    /** `_startWindowServiceListener()`. */
    method StartWindowServiceListener()
      modifies this`windowService
      ensures windowService == old(windowService).Attach()
    {
      windowService := windowService.Attach();
    }

    /** `_removeWindowServiceListener()`. */
    method RemoveWindowServiceListener()
      requires windowService.Valid()
      modifies this`windowService
      ensures windowService == old(windowService).Detach()
      ensures windowService.Valid() && !windowService.held
    {
      windowService := windowService.Detach();
    }

    /** `_startLocalStorageListener()`. */
    method StartLocalStorageListener()
      modifies this`localStorage
      ensures localStorage == old(localStorage).Attach()
    {
      localStorage := localStorage.Attach();
    }

    /** `_removeLocalStorageListener()`. */
    method RemoveLocalStorageListener()
      requires localStorage.Valid()
      modifies this`localStorage
      ensures localStorage == old(localStorage).Detach()
      ensures localStorage.Valid() && !localStorage.held
    {
      localStorage := localStorage.Detach();
    }

    /** `_startWindowEventServiceListener()`. */
    method StartWindowEventServiceListener()
      modifies this`windowEvents
      ensures windowEvents == old(windowEvents).Attach()
    {
      windowEvents := windowEvents.Attach();
    }

    /** `_removeWindowEventServiceListener()`. */
    method RemoveWindowEventServiceListener()
      requires windowEvents.Valid()
      modifies this`windowEvents
      ensures windowEvents == old(windowEvents).Detach()
      ensures windowEvents.Valid() && !windowEvents.held
    {
      windowEvents := windowEvents.Detach();
    }

    /**
     * WindowService reports a new OS scheme. Each attached subscription runs the handler, which
     * forwards the reported scheme only when there are listeners and no override. When a scheme
     * is stored, that forwarded scheme is the OS one, not the effective one.
     */
    method OsSchemeChanged(scheme: ColorScheme)
      requires Valid()
      modifies this`osScheme, observer`emitted
      ensures Valid()
      ensures osScheme == scheme
      ensures observer.emitted == old(observer.emitted)
        + (if HasCallbacks(observer.regs, COLOR_SCHEME_CHANGED) && colorScheme.None?
           then Repeat(Emission(COLOR_SCHEME_CHANGED, scheme, Callbacks(observer.regs, COLOR_SCHEME_CHANGED)),
                       windowService.attached)
           else [])
      ensures storedScheme.None? ==>
        forall i :: |old(observer.emitted)| <= i < |observer.emitted| ==> observer.emitted[i].payload == GetColorScheme()
    {
      osScheme := scheme;
      ghost var forwarded := HasCallbacks(observer.regs, COLOR_SCHEME_CHANGED) && colorScheme.None?;
      ghost var e := Emission(COLOR_SCHEME_CHANGED, scheme, Callbacks(observer.regs, COLOR_SCHEME_CHANGED));
      var i := 0;
      while i < windowService.attached
        invariant 0 <= i <= windowService.attached
        invariant osScheme == scheme
        invariant observer.emitted == old(observer.emitted) + (if forwarded then Repeat(e, i) else [])
      {
        if HasCallbacks(observer.regs, COLOR_SCHEME_CHANGED) {
          if colorScheme.None? {
            observer.TriggerEvent(COLOR_SCHEME_CHANGED, scheme);
            assert Repeat(e, i + 1) == Repeat(e, i) + [e];
          }
        }
        i := i + 1;
      }
    }

    /**
     * ThemeLocalStorageService reports that the stored scheme is now `stored`. Each attached
     * subscription runs the handler, which emits the effective scheme only when there are
     * listeners and no override.
     */
    method StoredSchemeChanged(stored: Option<ColorScheme>)
      requires Valid()
      modifies this`storedScheme, observer`emitted
      ensures Valid()
      ensures storedScheme == stored
      ensures observer.emitted == old(observer.emitted)
        + (if HasCallbacks(observer.regs, COLOR_SCHEME_CHANGED) && colorScheme.None?
           then Repeat(Emission(COLOR_SCHEME_CHANGED, GetColorScheme(), Callbacks(observer.regs, COLOR_SCHEME_CHANGED)),
                       localStorage.attached)
           else [])
    {
      storedScheme := stored;
      ghost var forwarded := HasCallbacks(observer.regs, COLOR_SCHEME_CHANGED) && colorScheme.None?;
      ghost var e := Emission(COLOR_SCHEME_CHANGED, GetColorScheme(), Callbacks(observer.regs, COLOR_SCHEME_CHANGED));
      var i := 0;
      while i < localStorage.attached
        invariant 0 <= i <= localStorage.attached
        invariant storedScheme == stored
        invariant observer.emitted == old(observer.emitted) + (if forwarded then Repeat(e, i) else [])
      {
        if HasCallbacks(observer.regs, COLOR_SCHEME_CHANGED) {
          if colorScheme.None? {
            observer.TriggerEvent(COLOR_SCHEME_CHANGED, GetColorScheme());
            assert Repeat(e, i + 1) == Repeat(e, i) + [e];
          }
        }
        i := i + 1;
      }
    }

    /**
     * WindowEventService delivers message `m`. Each attached subscription runs the handler,
     * which, when there are listeners and `m` passes the validator, applies its value through
     * `setColorScheme`; after the first run the later ones change nothing.
     */
    method MessageReceived(m: InboundMessage)
      requires Valid()
      modifies this`colorScheme, this`storedScheme, this`storageWrites, observer`emitted
      ensures Valid()
      ensures if windowEvents.attached > 0 && HasCallbacks(observer.regs, COLOR_SCHEME_CHANGED) && IsThemeChangeMessage(m)
        then AppliedColorScheme(MessageScheme(m))
        else (colorScheme == old(colorScheme) && storedScheme == old(storedScheme)
          && storageWrites == old(storageWrites) && observer.emitted == old(observer.emitted))
    {
      var i := 0;
      while i < windowEvents.attached
        invariant 0 <= i <= windowEvents.attached
        invariant Valid()
        invariant if i > 0 && HasCallbacks(observer.regs, COLOR_SCHEME_CHANGED) && IsThemeChangeMessage(m)
          then AppliedColorScheme(MessageScheme(m))
          else (colorScheme == old(colorScheme) && storedScheme == old(storedScheme)
            && storageWrites == old(storageWrites) && observer.emitted == old(observer.emitted))
      {
        if HasCallbacks(observer.regs, COLOR_SCHEME_CHANGED) {
          if IsThemeChangeMessage(m) {
            SetColorScheme(MessageScheme(m));
          }
        }
        i := i + 1;
      }
    }
  }
  /**
   * Two listeners subscribe while no override is set and then both unsubscribe: `on` attached
   * two subscriptions to each upstream service but kept only the second destructor, so one
   * subscription to each stays attached with no destructor held for it.
   */
  method TwoListenersLeakOneSubscription(os: ColorScheme) returns (s: ThemeService)
    ensures s.Valid()
    ensures s.observer.regs == []
    ensures s.windowService == s.localStorage == s.windowEvents == Upstream(1, false)
  {
    s := new ThemeService(None, os);
    var first := s.On(COLOR_SCHEME_CHANGED, 1);
    var second := s.On(COLOR_SCHEME_CHANGED, 2);
    assert first.value == 0 && second.value == 1;
    assert s.observer.regs == [Registration(0, COLOR_SCHEME_CHANGED, 1), Registration(1, COLOR_SCHEME_CHANGED, 2)];
    var r1 := s.CallDestructor(first.value);
    assert Registration(1, COLOR_SCHEME_CHANGED, 2) in s.observer.regs;
    var r2 := s.CallDestructor(second.value);
  }

  /**
   * One step of ThemeService's listener life cycle, as it affects one upstream subscription:
   * `on` while an override is or is not set, the first call of a destructor `on` returned, a
   * repeated call of one, or `destroy()`. `detaches` says whether `destroy()` detaches this
   * subscription: it does for the WindowService and storage ones, not for the message one.
   */
  datatype ListenerStep =
    | Subscribe(overrideSet: bool)
    | Unsubscribe
    | RepeatedUnsubscribe
    | DestroyService(detaches: bool)

  /** How many listeners are registered, and the state of one upstream subscription. */
  datatype Subscriptions = Subscriptions(listeners: nat, upstream: Upstream)

  /**
   * One step, with the `_start*` helper as written (`corrected == false`: `Attach`) or as
   * evidently intended (`corrected == true`: `AttachOnce`). A first destructor call removes a
   * listener, a repeated one removes none, and either detaches when no listener is left.
   */
  function Step(s: Subscriptions, step: ListenerStep, corrected: bool): (t: Subscriptions)
    requires s.upstream.Valid()
    ensures t.upstream.Valid()
    ensures t.listeners == match step
      case Subscribe(_) => s.listeners + 1
      case Unsubscribe => (if s.listeners > 0 then s.listeners - 1 else 0)
      case RepeatedUnsubscribe => s.listeners
      case DestroyService(_) => s.listeners
  {
    match step
    case Subscribe(overrideSet) =>
      Subscriptions(s.listeners + 1,
        if overrideSet then s.upstream
        else if corrected then s.upstream.AttachOnce()
        else s.upstream.Attach())
    case Unsubscribe =>
      var n := if s.listeners > 0 then s.listeners - 1 else 0;
      Subscriptions(n, if n == 0 then s.upstream.Detach() else s.upstream)
    case RepeatedUnsubscribe =>
      Subscriptions(s.listeners, if s.listeners == 0 then s.upstream.Detach() else s.upstream)
    case DestroyService(detaches) =>
      Subscriptions(s.listeners, if detaches then s.upstream.Detach() else s.upstream)
  }

  /** The steps `steps`, one after the other. */
  function Replay(s: Subscriptions, steps: seq<ListenerStep>, corrected: bool): (t: Subscriptions)
    requires s.upstream.Valid()
    ensures t.upstream.Valid()
    decreases |steps|
  {
    if steps == [] then s else Replay(Step(s, steps[0], corrected), steps[1..], corrected)
  }

  /** Replaying `a + b` is replaying `a`, then `b`. */
  lemma {:induction false} ReplayAppend(s: Subscriptions, a: seq<ListenerStep>, b: seq<ListenerStep>, corrected: bool)
    requires s.upstream.Valid()
    ensures Replay(s, a + b, corrected) == Replay(Replay(s, a, corrected), b, corrected)
    decreases |a|
  {
    if a == [] {
      assert a + b == b;
    } else {
      assert (a + b)[0] == a[0];
      assert (a + b)[1..] == a[1..] + b;
      ReplayAppend(Step(s, a[0], corrected), a[1..], b, corrected);
    }
  }

  /** As written, each `on` without an override attaches one more subscription. */
  lemma {:induction false} SubscribesAttachEach(s: Subscriptions, k: nat)
    requires s.upstream.Valid() && k >= 1
    ensures Replay(s, Repeat(Subscribe(false), k), false)
         == Subscriptions(s.listeners + k, Upstream(s.upstream.attached + k, true))
    decreases k
  {
    var steps := Repeat(Subscribe(false), k);
    var next := Step(s, Subscribe(false), false);
    assert steps[0] == Subscribe(false);
    if k == 1 {
      assert steps[1..] == [];
    } else {
      assert steps[1..] == Repeat(Subscribe(false), k - 1);
      SubscribesAttachEach(next, k - 1);
    }
  }

  /** Fewer destructor calls than listeners remove that many listeners and detach nothing. */
  lemma {:induction false} UnsubscribesBeforeLast(s: Subscriptions, j: nat, corrected: bool)
    requires s.upstream.Valid() && j < s.listeners
    ensures Replay(s, Repeat(Unsubscribe, j), corrected) == Subscriptions(s.listeners - j, s.upstream)
    decreases j
  {
    var steps := Repeat(Unsubscribe, j);
    if j == 0 {
      assert steps == [];
    } else {
      assert steps[0] == Unsubscribe;
      assert steps[1..] == Repeat(Unsubscribe, j - 1);
      UnsubscribesBeforeLast(Step(s, Unsubscribe, corrected), j - 1, corrected);
    }
  }

  /**
   * `k` destructor calls with `k` listeners registered detach once, at the last one: the calls
   * before it leave the subscription as it was.
   */
  lemma {:induction false} UnsubscribesDetachOnce(s: Subscriptions, k: nat, corrected: bool)
    requires s.upstream.Valid() && k >= 1 && s.listeners == k
    ensures forall j :: 1 <= j < k ==>
      Replay(s, Repeat(Unsubscribe, j), corrected) == Subscriptions(k - j, s.upstream)
    ensures Replay(s, Repeat(Unsubscribe, k), corrected) == Subscriptions(0, s.upstream.Detach())
    decreases k
  {
    forall j | 1 <= j < k
      ensures Replay(s, Repeat(Unsubscribe, j), corrected) == Subscriptions(k - j, s.upstream)
    {
      UnsubscribesBeforeLast(s, j, corrected);
    }
    var steps := Repeat(Unsubscribe, k);
    var next := Step(s, Unsubscribe, corrected);
    assert steps[0] == Unsubscribe;
    if k == 1 {
      assert steps[1..] == [];
    } else {
      assert steps[1..] == Repeat(Unsubscribe, k - 1);
      UnsubscribesDetachOnce(next, k - 1, corrected);
    }
  }

  /**
   * As written: `n` listeners that subscribe without an override and then all unsubscribe leave
   * `n - 1` subscriptions attached to the upstream service, with no destructor held for them.
   */
  lemma {:induction false} ListenersLeakAsWritten(n: nat)
    requires n >= 1
    ensures Replay(Subscriptions(0, Upstream(0, false)), Repeat(Subscribe(false), n) + Repeat(Unsubscribe, n), false)
         == Subscriptions(0, Upstream(n - 1, false))
  {
    var start := Subscriptions(0, Upstream(0, false));
    ReplayAppend(start, Repeat(Subscribe(false), n), Repeat(Unsubscribe, n), false);
    SubscribesAttachEach(start, n);
    UnsubscribesDetachOnce(Subscriptions(n, Upstream(n, true)), n, false);
  }

  /**
   * At most one subscription is attached, exactly when a destructor is held for it, and none
   * once no listener remains.
   */
  predicate Tidy(s: Subscriptions) {
    s.upstream.attached == (if s.upstream.held then 1 else 0)
    && (s.listeners == 0 ==> !s.upstream.held)
  }

  /**
   * As evidently intended: with `AttachOnce`, every sequence of `on`, first and repeated
   * destructor calls and `destroy()` keeps at most one subscription attached, and none once no listener remains.
   */
  lemma {:induction false} CorrectedSubscriptionsStayTidy(s: Subscriptions, steps: seq<ListenerStep>)
    requires Tidy(s)
    ensures Tidy(Replay(s, steps, true))
    ensures Replay(s, steps, true).upstream.attached <= 1
    ensures Replay(s, steps, true).listeners == 0 ==> Replay(s, steps, true).upstream.attached == 0
    decreases |steps|
  {
    if steps != [] {
      var next := Step(s, steps[0], true);
      assert Tidy(next);
      CorrectedSubscriptionsStayTidy(next, steps[1..]);
    }
  }
}
