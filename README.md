# Hole-punch overlay controller, modelled in Dafny

`OverlayService` is an Android accessibility service. It draws a black
"hole-punch" overlay at the top of the screen: a small circle when idle, and
a pill around the camera cut-out while the overlay is expanded or music is
playing. The pill's left slot shows the album art and its right slot the
player's app icon. A long press swaps the two for previous/next controls,
which hide again after 1500 ms. The service follows the platform's active
media sessions. It binds the first one that is playing or buffering (else
the first one listed), registers a callback on it and republishes that
controller's playing state, artwork and icon. A tap hides the controls while
they show, and otherwise toggles the expansion.
When music stops while the overlay is expanded, it collapses 700 ms later.
Sizes and offsets arrive as intent extras.

The project models the event-driven core of
`app/src/main/java/com/example/myapplication/OverlayService.kt` (the "source"
below). It has two layers.

- **Values** (`values.dfy`, `media_sessions.dfy`, `render_target.dfy`,
  `overlay_state.dfy`). `OverlayState.State` is the service's state as a
  value: its fields, the touch listener's two captured locals, and what the
  platform holds on its behalf. That last part is:
  - the callbacks registered with controllers (a multiset of
    `Registration`s);
  - the main-thread `Handler`'s pending hide and long-press messages (lists
    of deadlines);
  - the pending collapse of the composition's `LaunchedEffect`;
  - the transport commands sent;
  - a logical clock.

  Each handler of the source is a transition function on `State`.
  `Step`/`Next`/`Run` close these into a state machine. An input may arrive
  at time `t` only when no timer is overdue at `t`. A timer fires only when
  its deadline is the earliest one pending.
- **Object** (`overlay_service.dfy`). The class `Service.OverlayService`
  has one mutable field per state component. Its methods are the
  platform's entry points and the service's private helpers. Each handler
  is a sequence of single-field writes, in the source's order, and is
  proved to leave `View()` equal to the matching transition of its old
  state. Every entry point also keeps `Valid()`, that is `OverlayState.Inv`.

The properties are in `overlay_invariants.dfy` (the invariant, kept by
every step and hence by every run from the initial state),
`overlay_properties.dfy` (the rules each handler promises) and
`overlay_scenarios.dfy` (whole interactions run through `Run`).

Where the code's comments and its behaviour disagree, the model follows the behaviour. Some behaviour a reader might expect is also absent:

- The hide delay is 1500 ms, as the code posts it. The "3.5 seconds" in the
  comment beside it is stale.
- `ACTION_MOVE` is ignored. There is no drag handling.
- `onSessionDestroyed` only clears the media. No other active session is
  bound until the next session-change notification.
- `onDestroy` does not remove the session-change listener.
- Visible controls do not imply the pill. Pausing while the controls show
  and the overlay is not expanded leaves the controls flagged visible over
  the idle circle until their hide fires (`OverlayScenarios.ControlsCanOutlivePill`).

## Model

| member | source | states |
|---|---|---|
| MediaSessions.FirstActive | app/src/main/java/com/example/myapplication/OverlayService.kt:114-117 | the index found is of a playing or buffering controller and no earlier one is; none is found only when no controller plays or buffers |
| MediaSessions.Select | app/src/main/java/com/example/myapplication/OverlayService.kt:113-119 | an empty list selects nothing (so `clearMedia` runs); the first playing or buffering controller is selected; failing that, the first listed one |
| MediaSessions.ArtworkOf | app/src/main/java/com/example/myapplication/OverlayService.kt:135-137 | the artwork is the ALBUM_ART bitmap if present, else the ART bitmap; it is none exactly when there is no metadata or neither bitmap |
| MediaSessions.IconOf | app/src/main/java/com/example/myapplication/OverlayService.kt:139-143 | the icon is the package's icon; a failed lookup yields none, exactly when the package is unknown |
| MediaSessions.SyncFields | app/src/main/java/com/example/myapplication/OverlayService.kt:130-144 | `sync` reports playing iff the state is PLAYING or BUFFERING; the artwork is the metadata's ALBUM_ART bitmap when present, else its ART bitmap, and none without metadata; the icon is the package's icon, or none when the lookup fails |
| Values.Wrap32 | app/src/main/java/com/example/myapplication/OverlayService.kt:290 | Kotlin `Int` arithmetic: the result agrees with the exact value modulo 2^32 and equals it when it is in range |
| RenderTarget.PillWidthFitsRow | app/src/main/java/com/example/myapplication/OverlayService.kt:290 | without overflow, `totalPillWidth` is the sum of the pill row's children (two 32-unit slots, two 12-unit spacers, the hole) plus twice the horizontal padding |
| RenderTarget.LeftSlot | app/src/main/java/com/example/myapplication/OverlayService.kt:313-334 | the left slot shows the previous control iff the controls are shown; otherwise it shows the artwork when there is one and stays empty when there is none |
| RenderTarget.RightSlot | app/src/main/java/com/example/myapplication/OverlayService.kt:340-361 | the right slot shows the next control iff the controls are shown; otherwise it shows the app icon when there is one and stays empty when there is none |
| RenderTarget.Render | app/src/main/java/com/example/myapplication/OverlayService.kt:290-300 | pill mode iff expanded or playing; the pill targets `totalPillWidth` by the pill height, the circle is circle-size square; in the pill each slot shows its control iff the controls are shown, and the left and right slots are exactly `LeftSlot` and `RightSlot` of the controls flag, the artwork and the icon |
| RenderTarget.ControlsAndMediaNeverResize | app/src/main/java/com/example/myapplication/OverlayService.kt:292-299 | the shape and target size depend only on the mode and the sizes, never on the controls, artwork or icon |
| OverlayInvariants.InitialSatisfiesInv | app/src/main/java/com/example/myapplication/OverlayService.kt:47-73 | the field initialisers satisfy the invariant |
| OverlayInvariants.RegisteredIsBound | app/src/main/java/com/example/myapplication/OverlayService.kt:146-152 | under the invariant, a registered callback is the bound controller's current callback, so a controller callback always meets the bound session |
| OverlayInvariants.ClearMediaKeepsInv | app/src/main/java/com/example/myapplication/OverlayService.kt:156-165 | `clearMedia` keeps the invariant and leaves no callback registered |
| OverlayInvariants.BindKeepsInv | app/src/main/java/com/example/myapplication/OverlayService.kt:125-154 | `bindController` keeps exactly one callback, registered on the bound controller |
| OverlayInvariants.TouchKeepsInv | app/src/main/java/com/example/myapplication/OverlayService.kt:194-225 | every touch action keeps the invariant |
| OverlayInvariants.RunLongPressKeepsInv | app/src/main/java/com/example/myapplication/OverlayService.kt:198-204 | the long-press runnable firing keeps the invariant (at most one hide pending, and one exactly while the controls show) |
| OverlayInvariants.StepKeepsInv | app/src/main/java/com/example/myapplication/OverlayService.kt:78-264 | every enabled step (platform input or timer) keeps the invariant |
| OverlayInvariants.RunKeepsInv | app/src/main/java/com/example/myapplication/OverlayService.kt:78-264 | every run of steps from an invariant state ends in an invariant state |
| OverlayInvariants.ReachableBindingExact | app/src/main/java/com/example/myapplication/OverlayService.kt:125-172 | in every reachable state at most one callback is registered, on the bound controller, and at most one hide is pending, one exactly while the controls show |
| OverlayProperties.BindSameControllerIsNoop | app/src/main/java/com/example/myapplication/OverlayService.kt:126 | binding the controller already bound changes nothing: no re-register, no resync; under the invariant the one registration stays the existing callback on that controller |
| OverlayProperties.BindOtherController | app/src/main/java/com/example/myapplication/OverlayService.kt:125-154 | binding another controller unregisters the old callback, binds the new controller, registers exactly one new callback on it and resyncs at once; expansion, controls and hide timer are untouched |
| OverlayProperties.SyncTouchesOnlyMedia | app/src/main/java/com/example/myapplication/OverlayService.kt:130-144 | `sync` sets playing, artwork and icon from the controller and changes nothing else but the pending collapse |
| OverlayProperties.RefreshBindsSelection | app/src/main/java/com/example/myapplication/OverlayService.kt:112-120 | `refresh` clears the media on an empty list and otherwise leaves the selected controller bound |
| OverlayProperties.SyncIdempotent | app/src/main/java/com/example/myapplication/OverlayService.kt:130-144 | a second `sync` with the same snapshot changes nothing |
| OverlayProperties.ClearMediaResets | app/src/main/java/com/example/myapplication/OverlayService.kt:156-165 | after `clearMedia`: no controller, no callback, no registration, no artwork or icon, music and controls off, no pending hide; expansion and sizes untouched |
| OverlayProperties.DestroyedSessionIsNotReplaced | app/src/main/java/com/example/myapplication/OverlayService.kt:149 | a destroyed bound session leaves the service unbound with nothing registered |
| OverlayProperties.ResetTimerDebounces | app/src/main/java/com/example/myapplication/OverlayService.kt:167-172 | resetting the timer leaves exactly one hide due 1500 ms from now if the controls show and none otherwise, and changes nothing else; the result satisfies the one-pending-hide invariant and renders the same |
| OverlayProperties.HideOnlyHides | app/src/main/java/com/example/myapplication/OverlayService.kt:73 | the hide firing only turns the controls off (which were on) |
| OverlayProperties.TransportForwardsAndRearms | app/src/main/java/com/example/myapplication/OverlayService.kt:241-248 | previous/next sends its command to the bound controller if there is one, then re-arms the hide 1500 ms after the tap if the controls show |
| OverlayProperties.DownArmsLongPress | app/src/main/java/com/example/myapplication/OverlayService.kt:196-207 | a press clears `wasLongPress`, posts a new long-press runnable 500 ms ahead, is not consumed and touches neither expansion nor controls |
| OverlayProperties.LongPressGated | app/src/main/java/com/example/myapplication/OverlayService.kt:198-204 | the long press, only while playing or expanded, shows the controls, marks the press long and arms the hide; otherwise it changes nothing |
| OverlayProperties.ReleaseCancelsLongPress | app/src/main/java/com/example/myapplication/OverlayService.kt:208-222 | release and cancel both withdraw the pending long press of the current press |
| OverlayProperties.ReleaseRules | app/src/main/java/com/example/myapplication/OverlayService.kt:208-219 | after a short press, a release hides visible controls and their pending hide without touching the expansion, or else toggles the expansion; after a long press it does neither; the release is consumed |
| OverlayProperties.MoveIsIgnored | app/src/main/java/com/example/myapplication/OverlayService.kt:224 | move and other actions change nothing but the clock, are not consumed, render the same and keep the invariant |
| OverlayProperties.PlayingChangeReschedulesCollapse | app/src/main/java/com/example/myapplication/OverlayService.kt:283-288 | a write of the same playing value changes nothing; starting music cancels a pending collapse; stopping while expanded schedules it 700 ms later while the view is attached; stopping while folded, or after `onDestroy` has removed the view, schedules none |
| OverlayState.SetPlaying | app/src/main/java/com/example/myapplication/OverlayService.kt:283-288 | the `LaunchedEffect(musicPlaying)` restart rule: the playing flag takes the new value and only it and the pending collapse change; a write of the same value changes nothing; on a change a collapse is pending exactly when music stopped while the overlay is expanded and attached, due 700 ms from now |
| OverlayState.LongPressBody | app/src/main/java/com/example/myapplication/OverlayService.kt:198-204 | the long-press runnable's body: while playing or expanded it shows the controls, marks the press long and leaves exactly one hide due 1500 ms ahead; otherwise it changes nothing; no other field changes |
| OverlayProperties.CollapseOnlyFolds | app/src/main/java/com/example/myapplication/OverlayService.kt:240 | the collapse firing only folds the overlay; under the invariant the result is drawn as the circle-size idle circle |
| OverlayProperties.StartCommandKeepsIfAbsent | app/src/main/java/com/example/myapplication/OverlayService.kt:91-108 | each of the five sizes takes its `Int` extra when present and keeps its value when the key is absent; the x and y offsets do the same once `params` exists and are kept before; a null intent and every other field are left alone |
| OverlayProperties.StartCommandIdempotent | app/src/main/java/com/example/myapplication/OverlayService.kt:91-108 | delivering the same configuration twice is the same as once |
| OverlayProperties.RenderFollowsState | app/src/main/java/com/example/myapplication/OverlayService.kt:230-240 | the overlay rendered from the service's state is a pill iff expanded or playing, with the pill or circle targets, and its slots are `LeftSlot`/`RightSlot` of the state's controls flag, artwork and icon |
| OverlayScenarios.TapExpands | app/src/main/java/com/example/myapplication/OverlayService.kt:196-219 | press then release 200 ms later expands a folded overlay with hidden controls |
| OverlayScenarios.HoldUntilLongPress | app/src/main/java/com/example/myapplication/OverlayService.kt:196-206 | a press held 500 ms shows the controls with one hide due 1500 ms later while playing or expanded, and changes nothing visible otherwise |
| OverlayScenarios.LongPressWhilePlaying | app/src/main/java/com/example/myapplication/OverlayService.kt:196-219 | holding 600 ms while playing shows the controls, arms one hide, and the release changes nothing |
| OverlayScenarios.RunAppend | app/src/main/java/com/example/myapplication/OverlayService.kt:78-264 | running two step sequences in turn is running their concatenation |
| OverlayScenarios.ControlsHideAfterLongPress | app/src/main/java/com/example/myapplication/OverlayService.kt:167-172 | with nothing in between, the controls shown by a long press hide 1500 ms after it |
| OverlayScenarios.UngatedLongPressActsAsTap | app/src/main/java/com/example/myapplication/OverlayService.kt:198-219 | a long press while idle and folded is swallowed, so its release still expands the overlay |
| OverlayScenarios.StopWhileExpandedCollapses | app/src/main/java/com/example/myapplication/OverlayService.kt:283-288 | playback stopping while expanded folds the overlay 700 ms later |
| OverlayScenarios.ResumeBeforeCollapseKeepsExpanded | app/src/main/java/com/example/myapplication/OverlayService.kt:283-288 | playback resuming before the 700 ms cancels the collapse; the overlay stays expanded |
| OverlayScenarios.PlayingSessionPreferred | app/src/main/java/com/example/myapplication/OverlayService.kt:114-117 | a playing session is chosen over a paused one in either order |
| OverlayScenarios.FirstSessionWhenNonePlays | app/src/main/java/com/example/myapplication/OverlayService.kt:117 | with every session paused, the first listed one is chosen |
| OverlayScenarios.ControlsCanOutlivePill | app/src/main/java/com/example/myapplication/OverlayService.kt:130-133 | pausing while the controls show and the overlay is folded leaves visible controls over the idle circle |
| OverlayScenarios.ListenerOutlivesTeardown | app/src/main/java/com/example/myapplication/OverlayService.kt:258-264 | after `onDestroy` nothing is registered and the view is gone, yet a later session change binds and registers again |
| Service.OverlayService.constructor | app/src/main/java/com/example/myapplication/OverlayService.kt:47-73 | the fresh object is the initial state and satisfies the invariant |
| Service.OverlayService.OnServiceConnected | app/src/main/java/com/example/myapplication/OverlayService.kt:78-89 | show the overlay, refresh once and start listening for session changes; keeps the invariant |
| Service.OverlayService.ShowOverlay | app/src/main/java/com/example/myapplication/OverlayService.kt:175-254 | fresh touch locals, `params` at (0, 0), the view added |
| Service.OverlayService.OnStartCommand | app/src/main/java/com/example/myapplication/OverlayService.kt:91-108 | applies the extras as `OverlayState.OnStartCommand` does, keeps the invariant and returns START_STICKY |
| Service.OverlayService.Refresh | app/src/main/java/com/example/myapplication/OverlayService.kt:112-120 | binds the selected controller, or clears the media when the list is empty |
| Service.OverlayService.BindController | app/src/main/java/com/example/myapplication/OverlayService.kt:125-154 | returns at once for the bound controller; otherwise unregisters, adopts the controller, registers a fresh callback and syncs |
| Service.OverlayService.Sync | app/src/main/java/com/example/myapplication/OverlayService.kt:130-144 | writes the playing flag (restarting the collapse effect on a change), the artwork and the icon |
| Service.OverlayService.ClearMedia | app/src/main/java/com/example/myapplication/OverlayService.kt:156-165 | unregisters and forgets the controller, blanks the media, stops music and hides the controls with their pending hide |
| Service.OverlayService.ResetControlsTimer | app/src/main/java/com/example/myapplication/OverlayService.kt:167-172 | removes the pending hide and posts a new one only if the controls show |
| Service.OverlayService.OnPlaybackStateChanged | app/src/main/java/com/example/myapplication/OverlayService.kt:147 | the registered callback resyncs; keeps the invariant |
| Service.OverlayService.OnMetadataChanged | app/src/main/java/com/example/myapplication/OverlayService.kt:148 | the registered callback resyncs; keeps the invariant |
| Service.OverlayService.OnSessionDestroyed | app/src/main/java/com/example/myapplication/OverlayService.kt:149 | the registered callback clears the media; keeps the invariant |
| Service.OverlayService.OnSessionsChanged | app/src/main/java/com/example/myapplication/OverlayService.kt:122 | the session-change listener refreshes; keeps the invariant |
| Service.OverlayService.OnTouch | app/src/main/java/com/example/myapplication/OverlayService.kt:194-225 | handles the action as `OverlayState.OnTouch` does, keeps the invariant, and consumes exactly a release |
| Service.OverlayService.PostLongPress | app/src/main/java/com/example/myapplication/OverlayService.kt:196-207 | clears `wasLongPress`, creates the long-press runnable and posts it 500 ms ahead |
| Service.OverlayService.Release | app/src/main/java/com/example/myapplication/OverlayService.kt:210-217 | the tap rule: nothing after a long press, else hide visible controls, else toggle the expansion |
| Service.OverlayService.CancelLongPress | app/src/main/java/com/example/myapplication/OverlayService.kt:209 | removes every post of the current long-press runnable |
| Service.OverlayService.OnPrev | app/src/main/java/com/example/myapplication/OverlayService.kt:241-244 | skip-to-previous to the bound controller, if any, then the timer reset; keeps the invariant |
| Service.OverlayService.OnNext | app/src/main/java/com/example/myapplication/OverlayService.kt:245-248 | skip-to-next to the bound controller, if any, then the timer reset; keeps the invariant |
| Service.OverlayService.OnDestroy | app/src/main/java/com/example/myapplication/OverlayService.kt:258-264 | clears the media, drops the pending hide, removes the view and with it the pending collapse; keeps the invariant |
| Service.OverlayService.RunLongPress | app/src/main/java/com/example/myapplication/OverlayService.kt:198-204 | the earliest long-press runnable fires with its gated body; keeps the invariant |
| Service.OverlayService.RunHideControls | app/src/main/java/com/example/myapplication/OverlayService.kt:73 | the pending hide fires and turns the controls off; keeps the invariant |
| Service.OverlayService.RunCollapse | app/src/main/java/com/example/myapplication/OverlayService.kt:283-288 | the collapse delay ends and `onCollapse` folds the overlay; keeps the invariant |

## Left out

- Window plumbing (`addView`, `updateViewLayout`, `removeView`, the layout parameters' size, type, flags and gravity). Only the facts that `params` exists, its x/y offsets and whether the view is attached are modelled. The layout update after new offsets is a best-effort call whose failure is swallowed, so it changes no modelled state.
- Lifecycle and saved-state wiring, `getSystemService`, and the empty `onAccessibilityEvent`/`onInterrupt`: these are platform calls with no effect on the modelled state.
- Compose rendering and animation: the 400 ms size tween, the 300 ms fades, images and `AndroidView`. Only the target width, height and slot contents are modelled.
- Real time: `Handler.postDelayed` and the coroutine `delay` become pending deadlines on a logical clock, and firing a timer is an explicit step. Thread interleavings do not arise, since every handler runs on the main thread.
- MediaController identity: Kotlin's `==` on two controllers is modelled as equality of their session ids. A controller is a snapshot of its package, playback state and metadata. `MediaController` does not override `equals`, so the code compares object references, and `getActiveSessions` hands out fresh controller objects on every call. The code therefore re-registers a callback and resyncs on every `refresh`, even for the same session. The model skips that redundant re-registration: `OverlayProperties.BindSameControllerIsNoop` holds for equal session ids only.
- `LaunchedEffect` restart: Compose restarts the collapse effect only when a recomposition observes a changed `musicPlaying`. The model reschedules (or cancels) the collapse on every write of a new value to `isMusicPlaying`. It does not model a true-false-true flip that lands between two recompositions.
- Bitmap and drawable contents are opaque tokens. The package manager is a map from package name to icon, and a name outside the map is a lookup that throws.
- `MainActivity.kt` (permission flow and intents) and `MusicNotificationService.kt` (no logic) are not part of this model.
- Drag or move repositioning and rebinding on session destruction: the code has neither, so neither is modelled.
