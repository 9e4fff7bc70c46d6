# Frontend UI services, modelled in Dafny

This project models the core of a set of small browser-side services:

- **ThemeService** picks the colour scheme from three ranked sources: an in-process override, the scheme persisted by ThemeLocalStorageService, and the operating system's scheme reported by WindowService. It tells its COLOR_SCHEME_CHANGED listeners when the effective scheme changes. While it has listeners, it subscribes to WindowService, ThemeLocalStorageService and WindowEventService, which delivers messages from other windows and frames. It also validates inbound theme messages and builds the message `setRemoteColorScheme` posts.
- **WindowSizeService** is a debounced resize notifier. It keeps one resize handler on the window and at most one pending timeout. One RESIZED event follows a burst of resizes.
- **RouteService** is a one-slot mailbox. `setRoute` gives the route to the PUSH_HISTORY listeners or parks it. `getNextHistory` takes the parked route out.
- **FrontendCacheService** is a one-shot runner of startup initialisers. It runs them in registration order, each after the previous one completes.
- **EmailUtils.isEmailValid** is a plausibility check of an email address.

Every stateful service is a `class` (`isEmailValid` is a plain function). Its fields are the source's static fields, plus bookkeeping that no source field holds but that the contracts speak about:

- `ThemeService.storageWrites` logs the schemes written to storage.
- `ThemeService.calledDestructors` holds the handles whose destructor has been called once.
- `WindowSizeService.windowResizeListeners` counts the resize listeners the service has added to the window.
- `WindowSizeService.heldTimeoutPending` and `pendingTimeouts` track which scheduled timeouts have neither fired nor been cleared.
- `WindowSizeService.destructors` records, per destructor `on` returned, whether its closure was for RESIZED.
- `FrontendCacheService.ran` logs the initialisers run, in order.

The shared `Observer` collaborator is modelled in `observer.dfy` as a registry (`ObserverModel.Observer`). It holds the registrations still in force, in order, and a log (`emitted`) of each `triggerEvent` call with its payload and the callbacks it reached. Callbacks are named by ids, and a destructor returned by `on` is named by the handle of its registration.

The collaborators outside the core are plain state:

- ThemeLocalStorageService is `storedScheme`.
- WindowService is `osScheme`.
- Each upstream subscription of ThemeService is an `Upstream(attached, held)`. `attached` counts the subscriptions attached at the upstream service. `held` says whether ThemeService still holds a destructor.

The notifications those collaborators send become methods: `OsSchemeChanged`, `StoredSchemeChanged` and `MessageReceived` for ThemeService, and `Resize` and `TimerFires` for WindowSizeService. `typeof window !== 'undefined'` is the constant `hasWindow`. Which initialisers fail is the `failing` parameter of `FrontendCacheService.Initialize`.

Behaviour of the code that the model keeps as written:

- **ThemeService can hold two upstream subscriptions.** `on` attaches all three each time it is called while no override is set (ThemeService.ts:105-109), and the `_start*` helpers overwrite the held destructor without detaching the old one (ThemeService.ts:183, 211, 241). Two listeners that subscribe and then unsubscribe leave one subscription to each upstream service attached, with no destructor held for it (`Theme.TwoListenersLeakOneSubscription`). Each attached subscription runs the handler, so an OS or storage change is emitted once per attached subscription (`OsSchemeChanged`, `StoredSchemeChanged`). This is a finding; see "## Findings".
- **The OS handler sends the OS scheme, not the effective scheme.** It emits the OS scheme it was given even when a stored scheme decides `getColorScheme()` (ThemeService.ts:217). The emitted scheme equals the effective one only when nothing is stored.
- **A ThemeService destructor called a second time throws.** Its inner destructor is already `undefined` at that point (ThemeService.ts:115-116). Its `finally` block still runs and detaches the upstream subscriptions when no listener remains.
- **WindowSizeService does not clear the timeout field when the timeout fires.** `_resizeTimeout` stays defined after its timeout fires (WindowSizeService.ts:73-75). The model separates "a timeout is held" from "the held timeout is pending".

## Model

| member | source | states |
|---|---|---|
| `ObserverModel.HasCallbacks` | RouteService.ts:52 | `hasCallbacks(e)`: some registration still in force is for `e`; `Callbacks` below states its relation to the callbacks reached |
| `ObserverModel.Callbacks` | RouteService.ts:52-54 | the callbacks `triggerEvent(e)` reaches; the list is empty exactly when `hasCallbacks(e)` is false |
| `ObserverModel.CallbacksAppend` | RouteService.ts:27-32 | registering one more callback puts it last among the callbacks of its event and leaves other events' callbacks unchanged |
| `ObserverModel.Unregister` | WindowSizeService.ts:48-51 | a destructor keeps exactly the other registrations, and never adds one |
| `ObserverModel.UnregisterNewest` | ThemeService.ts:111-116 | the destructor of the newest registration removes exactly that registration |
| `ObserverModel.UnregisterAbsent` | WindowSizeService.ts:50-51 | a destructor whose registration is already gone removes nothing |
| `ObserverModel.Observer.constructor` | RouteService.ts:21 | a new observer has no registration, has emitted nothing and issues handles from 0 |
| `ObserverModel.Observer.ListenEvent` | RouteService.ts:31 | `listenEvent` adds one registration last, with a fresh handle whose destructor removes exactly it |
| `ObserverModel.Observer.Unlisten` | WindowSizeService.ts:51 | an observer destructor removes its registration; a repeated call changes nothing |
| `ObserverModel.Observer.TriggerEvent` | RouteService.ts:54 | `triggerEvent` delivers the payload once to the event's callbacks, in registration order |
| `ObserverModel.Observer.Destroy` | RouteService.ts:34-36 | `destroy` drops every registration |
| `Theme.IsThemeChangeMessage` | ThemeService.ts:39-45 | `isThemeChangeMessageDTO`: the message is truthy, has the namespaced type and a value that is undefined or a valid scheme; `ThemeChangeMessagesAreRemoteMessages` below states what it accepts |
| `Theme.RemoteMessage` | ThemeService.ts:149-158 | the message `setRemoteColorScheme(value)` builds always passes `isThemeChangeMessageDTO` and carries `value` back (`unsetRemoteColorScheme` sends it with no value) |
| `Theme.ThemeChangeMessagesAreRemoteMessages` | ThemeService.ts:39-45 | `isThemeChangeMessageDTO` accepts a message exactly when it is one `setRemoteColorScheme` can build: truthy, with the namespaced type, and a value that is undefined or a valid scheme |
| `Theme.ThemeService.constructor` | ThemeService.ts:49-53 | at load there is no override, no listener and no upstream subscription |
| `Theme.ThemeService.GetColorScheme` | ThemeService.ts:66-68 | the override if set, else the stored scheme if set, else the OS scheme |
| `Theme.ThemeService.HasDarkMode` | ThemeService.ts:58-60 | `hasDarkMode()`: the effective scheme is dark; its relation to `hasLightMode` is `ExactlyOneMode` |
| `Theme.ThemeService.HasLightMode` | ThemeService.ts:62-64 | `hasLightMode()`: the effective scheme is light |
| `Theme.ThemeService.ExactlyOneMode` | ThemeService.ts:58-64 | `hasDarkMode` holds exactly when the effective scheme is dark, and exactly one of `hasDarkMode` and `hasLightMode` holds |
| `Theme.ThemeService.SetColorScheme` | ThemeService.ts:70-93 | an unchanged override changes nothing; otherwise the override and the stored scheme become `value`, storage is written only if it differed, and exactly one COLOR_SCHEME_CHANGED is emitted if and only if there are listeners; its payload is `value`, or the OS scheme when clearing, and it equals the new effective scheme |
| `Theme.ThemeService.On` | ThemeService.ts:98-128 | an unsupported name fails and changes nothing; otherwise the callback is registered last, and one more subscription is attached to each of the three upstream services when no override is set (and none when one is set) |
| `Theme.ThemeService.CallDestructor` | ThemeService.ts:113-124 | takes only a handle `on` has issued; the first call removes exactly its registration and a repeated call fails; either way, once no listener remains, the three held upstream subscriptions are detached, and otherwise none is touched |
| `Theme.ThemeService.Destroy` | ThemeService.ts:132-138 | clears the override and detaches the WindowService and storage subscriptions; the message subscription and the listeners are left alone |
| `Theme.ThemeService.StartWindowServiceListener` | ThemeService.ts:209-227 | attaches one more WindowService subscription and holds its destructor in place of any held one |
| `Theme.ThemeService.RemoveWindowServiceListener` | ThemeService.ts:229-236 | detaches the held WindowService subscription, if any, and holds none afterwards |
| `Theme.ThemeService.StartLocalStorageListener` | ThemeService.ts:239-257 | attaches one more storage subscription and holds its destructor in place of any held one |
| `Theme.ThemeService.RemoveLocalStorageListener` | ThemeService.ts:259-266 | detaches the held storage subscription, if any, and holds none afterwards |
| `Theme.ThemeService.StartWindowEventServiceListener` | ThemeService.ts:181-197 | attaches one more message subscription and holds its destructor in place of any held one |
| `Theme.ThemeService.RemoveWindowEventServiceListener` | ThemeService.ts:199-206 | detaches the held message subscription, if any, and holds none afterwards |
| `Theme.ThemeService.OsSchemeChanged` | ThemeService.ts:211-225 | the OS scheme becomes the reported one; it is forwarded once per attached subscription when there are listeners and no override, and nothing is emitted otherwise; the payload is the effective scheme when nothing is stored |
| `Theme.ThemeService.StoredSchemeChanged` | ThemeService.ts:241-255 | the effective scheme is emitted once per attached storage subscription when there are listeners and no override, and nothing is emitted otherwise |
| `Theme.ThemeService.MessageReceived` | ThemeService.ts:183-195 | a message is applied through `setColorScheme` exactly when a message subscription is attached, there are listeners and the message passes the validator; otherwise nothing changes |
| `Theme.TwoListenersLeakOneSubscription` | ThemeService.ts:103-124 | two listeners subscribed and then unsubscribed with no override set leave one subscription attached to each upstream service, with no destructor held for it |
| `Theme.Upstream.AttachOnce` | ThemeService.ts:181-183 | the corrected `_start*`: subscribes only when no destructor is held, so afterwards a destructor is held and at most one more subscription is attached |
| `Theme.Step` | ThemeService.ts:98-138 | one `on`, destructor call or `destroy()` as one upstream subscription sees it: `on` adds a listener, a first destructor call removes one, a repeated call (which throws) removes none, and either detaches once no listener is left; `destroy()` keeps the listeners and detaches the WindowService and storage subscriptions but not the message one; a held destructor always has its subscription attached |
| `Theme.Replay` | ThemeService.ts:98-138 | a sequence of those steps keeps a held destructor's subscription attached |
| `Theme.SubscribesAttachEach` | ThemeService.ts:105-109 | as written, `k` calls of `on` with no override attach `k` more subscriptions and hold the last destructor |
| `Theme.UnsubscribesBeforeLast` | ThemeService.ts:113-124 | while listeners remain, each first destructor call removes one listener and leaves the subscription as it was |
| `Theme.UnsubscribesDetachOnce` | ThemeService.ts:113-124 | with `k` listeners, the first `k - 1` destructor calls leave the subscription as it was and the `k`-th detaches it |
| `Theme.ListenersLeakAsWritten` | ThemeService.ts:103-124 | as written, `n` listeners that subscribe with no override and then all unsubscribe leave `n - 1` subscriptions attached with no destructor held |
| `Theme.CorrectedSubscriptionsStayTidy` | ThemeService.ts:103-138 | with the corrected `_start*`, any sequence of `on`, first and repeated destructor calls and `destroy()` keeps at most one subscription attached, exactly when a destructor is held, and none once no listener remains |
| `WindowSize.WindowSizeService.constructor` | WindowSizeService.ts:21-25 | at load there is no handler, no timeout and no listener |
| `WindowSize.WindowSizeService.On` | WindowSizeService.ts:37-50 | registers the callback last and records whether its destructor is for RESIZED; the first RESIZED listener installs the handler when there is a window; a handler is never installed twice, and none is installed without a window |
| `WindowSize.WindowSizeService.CallDestructor` | WindowSizeService.ts:50-59 | takes only a handle `on` has issued; always removes its registration; when that `on` was for RESIZED and no RESIZED listener remains, the pending timeout is cancelled and the handler removed; otherwise nothing else changes |
| `WindowSize.WindowSizeService.Destroy` | WindowSizeService.ts:62-64 | drops every listener; the handler and any pending timeout stay |
| `WindowSize.WindowSizeService.OnResize` | WindowSizeService.ts:66-77 | cancels the held timeout and schedules a new one, so exactly one timeout is pending afterwards |
| `WindowSize.WindowSizeService.ClearHeldTimeout` | WindowSizeService.ts:68-71 | `clearTimeout` leaves no timeout pending |
| `WindowSize.WindowSizeService.StartListeningResize` | WindowSizeService.ts:79-84 | installs the handler only if none is installed and there is a window, so at most one is ever on the window |
| `WindowSize.WindowSizeService.StopListeningResize` | WindowSizeService.ts:86-98 | safe in any state; afterwards no timeout is pending or held and no handler is installed |
| `WindowSize.WindowSizeService.Resize` | WindowSizeService.ts:80-82 | a resize reaches `_onResize` only while the handler is installed |
| `WindowSize.WindowSizeService.TimerFires` | WindowSizeService.ts:73-75 | a pending timeout firing emits RESIZED once to the current listeners; with none pending nothing happens |
| `WindowSize.ResizeBurstEmitsOnce` | WindowSizeService.ts:66-77 | any burst of resizes followed by the timeout firing emits exactly one RESIZED, and nothing during the burst |
| `Route.RouteService.constructor` | RouteService.ts:21-23 | at load there is no listener and no parked route |
| `Route.RouteService.On` | RouteService.ts:27-32 | adds exactly one registration, last, whose destructor removes exactly it; the parked route is untouched |
| `Route.RouteService.CallDestructor` | RouteService.ts:31 | the returned destructor removes its registration; a repeated call changes nothing |
| `Route.RouteService.Destroy` | RouteService.ts:34-36 | removes every registration and leaves the parked route |
| `Route.RouteService.GetNextHistory` | RouteService.ts:38-43 | returns the parked route and empties the slot |
| `Route.RouteService.SetRoute` | RouteService.ts:50-60 | with PUSH_HISTORY listeners, emits the route to them and leaves the slot; without, parks the route over any parked one and emits nothing |
| `Route.ParkedRouteIsFetchedOnce` | RouteService.ts:38-58 | a route set with no listeners is returned by the next `getNextHistory`, and the call after that returns undefined |
| `Route.SetRouteAfterDestroyParks` | RouteService.ts:34-58 | after `destroy`, `setRoute` parks the route instead of emitting it |
| `FrontendCache.FrontendCacheService.IsInitialized` | FrontendCacheService.ts:21-23 | `isInitialized()`: a previous `initialize` has succeeded; `Initialize` below states when it becomes true |
| `FrontendCache.RunUntilFailure` | FrontendCacheService.ts:35-42 | chaining the initialisers runs a prefix of them in order: all of them when none fails, otherwise exactly those up to and including the first failure |
| `FrontendCache.FrontendCacheService.constructor` | FrontendCacheService.ts:11-13 | at load the service is neither initialised nor initialising, and no initialiser is registered |
| `FrontendCache.FrontendCacheService.RegisterInitializer` | FrontendCacheService.ts:15-19 | refused when initialised or initialising (in that order of checks); otherwise appended after the earlier ones |
| `FrontendCache.FrontendCacheService.Initialize` | FrontendCacheService.ts:28-47 | refused when initialised or initialising, changing nothing; otherwise each initialiser runs once, in order, until one fails; it succeeds exactly when none fails, and then `isInitialized()` holds and initialising is over; on a failure the error names the first failing initialiser, the last one run, and the service stays initialising and not initialised |
| `FrontendCache.SecondInitializeFails` | FrontendCacheService.ts:15-31 | after a successful `initialize`, a second `initialize` and any registration are refused |
| `FrontendCache.RegisterAsWritten` | FrontendCacheService.ts:13-18 | `registerInitializer` as written succeeds only when the service is neither initialised nor initialising and the list is defined |
| `FrontendCache.FreshServiceRefusesRegistrationAsWritten` | FrontendCacheService.ts:13-18 | as written, a freshly loaded service throws on every registration |
| `FrontendCache.FreshServiceAcceptsRegistration` | FrontendCacheService.ts:13-18 | with the list starting empty, a freshly loaded service accepts a registration |
| `EmailUtils.Includes` | EmailUtils.ts:10 | `s.includes(c)` for a one-character needle holds exactly when `c` occurs in `s` |
| `EmailUtils.IsEmailValid` | EmailUtils.ts:5-11 | valid exactly when the value is a string of at least 3 characters that contains '@' and neither starts nor ends with '@' or '.'; a non-string is invalid |
| `EmailUtils.EmailExamples` | EmailUtils.ts:5-11 | "a@b" is valid; "@b.com", "a@", "", ".a@b", "a@b.", "abc" and a non-string are not |

## Findings

| source | as written | input that shows it | evidently intended | confidence | as-written member | corrected member |
|---|---|---|---|---|---|---|
| ThemeService.ts:105-109 | `on` starts all three upstream subscriptions whenever no override is set, and each `_start*` overwrites the held destructor without detaching the old subscription | two `on` calls with no override set, then both destructors | at most one subscription per upstream service, and none once no listener remains | medium (not executed) | `Theme.ListenersLeakAsWritten` | `Theme.CorrectedSubscriptionsStayTidy` |
| FrontendCacheService.ts:13 | `_initializers` is declared with no initial value, so it is `undefined` and `registerInitializer` throws a TypeError at `push` | `registerInitializer(f)` on a freshly loaded service | the list starts as `[]`, and the first registration is appended | high (not executed) | `FrontendCache.FreshServiceRefusesRegistrationAsWritten` | `FrontendCache.FreshServiceAcceptsRegistration` |

The ThemeService class keeps `on` as written, so that its other contracts (one emission per attached subscription) describe the code. The corrected `_start*` is `Upstream.AttachOnce`, and `Step`/`Replay` run the listener life cycle both ways. The evident intent shows in the handlers, which warn when they run while ThemeService has no listeners (ThemeService.ts:192, 222, 252).

The rest of the model uses the corrected initialiser list, which starts empty. As written, `initialize` on a fresh service would give lodash `reduce` an undefined collection. That returns the resolved start value, so it would succeed without running anything.

## Left out

- EmailAuthHttpService is not part of this model. It is asynchronous HTTP through `HttpService.postJson`, and its DTO validator and URL builders are not shown.
- `WindowSizeService.getWidth`/`getHeight` read `window` directly and contain no logic.
- Real time is not modelled. The 200 ms delay, `setTimeout`/`clearTimeout` and `addEventListener`/`removeEventListener` become flags, counters and the events `Resize` and `TimerFires`.
- `setRemoteColorScheme` and `unsetRemoteColorScheme` are modelled only as the message they build (`RemoteMessage`). `JSON.stringify`, `postMessage`, the target and the origin are I/O. The receiving side is modelled as it reads the message back: an omitted `value` is undefined.
- The internals of WindowService, ThemeLocalStorageService, WindowEventService and Observer are not modelled. They become the state described above. The model assumes three things about them. Reading the storage returns what was last written. A storage write does not itself raise a storage change notification. An observer destructor removes only its own registration and can be called again harmlessly.
- `isColorScheme` and the encoding of colour schemes are not modelled. A message's `value` is abstracted to undefined, a valid scheme, or anything else.
- Callbacks that call back into a service while an event is being delivered (re-entrancy) are not modelled. The model records who was called, not what the callbacks do.
- `LOG.debug`/`warn`/`error` output is not modelled.
- The Promise machinery of `initialize` is not modelled. The lodash `reduce` chain becomes a sequential loop. A thrown or rejected initialiser is a failure, and whether an initialiser fails depends only on its id. Calls made by initialisers while `initialize` runs are not modelled.
- `WindowSizeService`'s destructor catches errors from `_stopListeningResize`. The model's stop cannot fail, so that path is absent.
- Strings are sequences of Unicode scalar values (Dafny's `char`), not of UTF-16 code units as in JavaScript. `isEmailValid` gives the same answer under both readings: '@' and '.' are single code units, and a valid address has its '@' away from both ends, so it is at least three elements long either way.
- Strings holding a lone surrogate cannot be written as a Dafny `string`, so `isEmailValid` on them is not modelled.
