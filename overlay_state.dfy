/** The overlay service's controller as a state machine over plain data.
    Each function below is one handler of `OverlayService` (or one timer
    firing) and gives the state after it; the class in overlay_service.dfy
    runs the same handlers by updating its fields and is proved to agree.

    Platform scheduling is explicit: the main-thread `Handler`'s pending
    messages are `hideQueue` (posts of `hideControlsRunnable`) and
    `longPressQueue` (posts of long-press runnables), each with its
    deadline; the pending `delay(700)` of the collapse effect is
    `collapseAt`; `now` is the time of the last handled event. */
module OverlayState {
  import opened Values
  import opened MediaSessions
  import opened RenderTarget

  /** Delay before a held press counts as a long press. */
  const LONG_PRESS_MS: nat := 500
  /** Delay before revealed controls hide again. */
  const HIDE_CONTROLS_MS: nat := 1500
  /** Delay of the auto-collapse after playback stops. */
  const COLLAPSE_DELAY_MS: nat := 700
  /** `Service.START_STICKY`. */
  const START_STICKY: int := 1

  /** Intent extras read by `onStartCommand`. */
  const KEY_H_PADDING: string := "PILL_H_PADDING"
  const KEY_V_PADDING: string := "PILL_V_PADDING"
  const KEY_HOLE_WIDTH: string := "HOLE_WIDTH"
  const KEY_PILL_HEIGHT: string := "PILL_HEIGHT"
  const KEY_CIRCLE_SIZE: string := "CIRCLE_SIZE"
  const KEY_X_OFFSET: string := "X_OFFSET"
  const KEY_Y_OFFSET: string := "Y_OFFSET"

  /** Identity of a `MediaController.Callback` object the service created. */
  type CallbackId = nat
  /** Identity of a long-press `Runnable` the touch listener created. */
  type RunnableId = nat

  /** One callback registered with one controller, as the platform holds it. */
  datatype Registration = Registration(session: SessionId, callback: CallbackId)

  /** A posted long-press runnable and the time it is due. */
  datatype Posted = Posted(runnable: RunnableId, deadline: nat)

  /** Transport commands sent to a controller. */
  datatype Command = SkipToPrevious(session: SessionId) | SkipToNext(session: SessionId)

  /** `MotionEvent.action`, with every action the listener does not name
      folded into `ActionOther`. */
  datatype MotionAction = ActionDown | ActionUp | ActionMove | ActionCancel | ActionOther

  /** An intent extra: an `Int` or a value of some other type. */
  datatype ExtraValue = IntExtra(v: int32) | OtherExtra
  type Extras = map<string, ExtraValue>

  datatype State = State(
    now: nat,
    // window: whether `params` exists (the overlay was shown), whether the
    // view is attached, and `params.x`/`params.y`
    connected: bool,
    viewAttached: bool,
    x: int32,
    y: int32,
    // media-session binding
    sessionsListener: bool,
    activeController: Option<SessionId>,
    mediaCallback: Option<CallbackId>,
    nextCallback: CallbackId,
    registrations: multiset<Registration>,
    // the observable flags and handles the overlay renders from
    albumArt: Option<Bitmap>,
    appIcon: Option<Drawable>,
    isMusicPlaying: bool,
    isExpanded: bool,
    isControlsVisible: bool,
    // slider-controlled sizes
    hPadding: int32,
    vPadding: int32,
    holeWidth: int32,
    pillHeight: int32,
    circleSize: int32,
    // the touch listener's captured locals
    wasLongPress: bool,
    longPressRunnable: Option<RunnableId>,
    nextRunnable: RunnableId,
    // pending main-thread messages and the pending collapse
    hideQueue: seq<nat>,
    longPressQueue: seq<Posted>,
    collapseAt: Option<nat>,
    // transport commands sent so far
    sent: seq<Command>)

  /** The service as constructed, before the platform connects it. */
  function Initial(): State {
    State(now := 0, connected := false, viewAttached := false, x := 0, y := 0,
          sessionsListener := false, activeController := None, mediaCallback := None,
          nextCallback := 0, registrations := multiset{},
          albumArt := None, appIcon := None,
          isMusicPlaying := false, isExpanded := false, isControlsVisible := false,
          hPadding := 14, vPadding := 4, holeWidth := 60, pillHeight := 36, circleSize := 36,
          wasLongPress := false, longPressRunnable := None, nextRunnable := 0,
          hideQueue := [], longPressQueue := [], collapseAt := None, sent := [])
  }

  /** The sizes the overlay is composed with. */
  function SizingOf(s: State): Sizing {
    Sizing(s.hPadding, s.vPadding, s.holeWidth, s.pillHeight, s.circleSize)
  }

  /** What the overlay renders in state `s`. */
  function RenderOf(s: State): Frame {
    Render(s.isExpanded, s.isMusicPlaying, s.albumArt, s.appIcon, SizingOf(s), s.isControlsVisible)
  }

  // ---------------------------------------------------------------------
  // Scheduling

  /** No pending message or delay is due before `t`. */
  predicate Quiet(s: State, t: nat) {
    && (forall d :: d in s.hideQueue ==> t <= d)
    && (forall p :: p in s.longPressQueue ==> t <= p.deadline)
    && (s.collapseAt.Some? ==> t <= s.collapseAt.value)
  }

  /** An input arriving at `t` is handled before any timer still pending. */
  predicate CanHandle(s: State, t: nat) {
    s.now <= t && Quiet(s, t)
  }

  /** `Handler.removeCallbacks(r)`: every post of runnable `id` goes. */
  function Without(q: seq<Posted>, id: RunnableId): (r: seq<Posted>)
    ensures forall p :: p in r <==> p in q && p.runnable != id
  {
    if q == [] then []
    else (if q[0].runnable == id then [] else [q[0]]) + Without(q[1..], id)
  }

  // ---------------------------------------------------------------------
  // Controls auto-hide timer and the collapse effect

  /** `resetControlsTimer`: drop any pending hide, then post one only if the
      controls are visible. */
  function ResetControlsTimer(s: State): State {
    s.(hideQueue := if s.isControlsVisible then [s.now + HIDE_CONTROLS_MS] else [])
  }

  /** Writing `isMusicPlaying`. A write of the same value changes nothing;
      a change restarts `LaunchedEffect(musicPlaying)`: the pending collapse
      is cancelled and, if music stopped while expanded, a new one is due
      700 ms later. Once the view is gone there is no composition to run it. */
  function SetPlaying(s: State, playing: bool): (r: State)
    ensures r.isMusicPlaying == playing
    ensures r.(isMusicPlaying := s.isMusicPlaying, collapseAt := s.collapseAt) == s
    ensures playing == s.isMusicPlaying ==> r == s
    ensures playing != s.isMusicPlaying && r.collapseAt.Some? ==>
              r.collapseAt.value == s.now + COLLAPSE_DELAY_MS && !playing && s.isExpanded && s.viewAttached
    ensures playing != s.isMusicPlaying && !playing && s.isExpanded && s.viewAttached ==> r.collapseAt.Some?
  {
    if playing == s.isMusicPlaying then s
    else s.(isMusicPlaying := playing,
            collapseAt := if !playing && s.isExpanded && s.viewAttached
                          then Some(s.now + COLLAPSE_DELAY_MS) else None)
  }

  // ---------------------------------------------------------------------
  // Media sessions

  /** `mediaCallback?.let { activeController?.unregisterCallback(it) }`. */
  function Unregistered(s: State): multiset<Registration> {
    if s.activeController.Some? && s.mediaCallback.Some?
    then s.registrations - multiset{Registration(s.activeController.value, s.mediaCallback.value)}
    else s.registrations
  }

  /** `sync`: republish playing flag, artwork and icon from controller `c`. */
  function Sync(s: State, c: Controller, icons: PackageIcons): State {
    var d := SyncFields(c, icons);
    SetPlaying(s, d.playing).(albumArt := d.art, appIcon := d.icon)
  }

  /** `bindController`: nothing if `c` is already bound; otherwise detach
      the old callback, adopt `c`, attach one new callback and resync. */
  function BindController(s: State, c: Controller, icons: PackageIcons): State {
    if s.activeController == Some(c.id) then s
    else Sync(Attach(s, c), c, icons)
  }

  /** The registration part of `bindController`: the old callback goes, a
      new callback object is created, registered on `c` and remembered. */
  function Attach(s: State, c: Controller): State {
    var cb := s.nextCallback;
    s.(registrations := Unregistered(s) + multiset{Registration(c.id, cb)},
       activeController := Some(c.id),
       mediaCallback := Some(cb),
       nextCallback := cb + 1)
  }

  /** `clearMedia`: detach and forget the controller, blank the media
      fields, hide the controls and drop the pending hide. */
  function ClearMedia(s: State): State {
    HideControlsNow(SetPlaying(Detach(s), false))
  }

  /** The first half of `clearMedia`: unregister and forget the controller
      and its callback, blank artwork and icon. */
  function Detach(s: State): State {
    s.(registrations := Unregistered(s), activeController := None,
       mediaCallback := None, albumArt := None, appIcon := None)
  }

  /** `isControlsVisible.value = false` with the pending hide removed. */
  function HideControlsNow(s: State): State {
    s.(isControlsVisible := false, hideQueue := [])
  }

  /** The `refresh` lambda over the platform's current active sessions. */
  function Refresh(s: State, sessions: seq<Controller>, icons: PackageIcons): State {
    match Select(sessions)
    case Some(c) => BindController(s, c, icons)
    case None => ClearMedia(s)
  }

  // ---------------------------------------------------------------------
  // Platform entry points; each input sets the clock to its own time first

  /** `onServiceConnected`: show the overlay (fresh `params` at 0,0, the
      view attached, the listener's locals reset), refresh once and keep
      listening for session changes. */
  function OnServiceConnected(s: State, t: nat, sessions: seq<Controller>, icons: PackageIcons): State {
    Refresh(ShowOverlay(s.(now := t)), sessions, icons).(sessionsListener := true)
  }

  /** `showOverlay`: new layout parameters at offset (0, 0), the view
      added, the touch listener's locals fresh. */
  function ShowOverlay(s: State): State {
    s.(connected := true, viewAttached := true, x := 0, y := 0,
       wasLongPress := false, longPressRunnable := None)
  }

  /** `intent.getIntExtra(key, default)`. */
  function GetIntExtra(extras: Extras, key: string, default: int32): int32 {
    if key in extras && extras[key].IntExtra? then extras[key].v else default
  }

  /** `onStartCommand`: a null intent changes nothing; otherwise the sizes
      and then the offsets are taken from the extras. The layout update
      that follows is best-effort and changes no state here. */
  function OnStartCommand(s: State, intent: Option<Extras>): State {
    match intent
    case None => s
    case Some(e) => ApplyOffsets(ApplySizes(s, e), e)
  }

  /** Each size takes its `Int` extra or keeps its value. */
  function ApplySizes(s: State, e: Extras): State {
    s.(hPadding := GetIntExtra(e, KEY_H_PADDING, s.hPadding),
       vPadding := GetIntExtra(e, KEY_V_PADDING, s.vPadding),
       holeWidth := GetIntExtra(e, KEY_HOLE_WIDTH, s.holeWidth),
       pillHeight := GetIntExtra(e, KEY_PILL_HEIGHT, s.pillHeight),
       circleSize := GetIntExtra(e, KEY_CIRCLE_SIZE, s.circleSize))
  }

  /** The offsets take their extras only once `params` exists, that is once
      the overlay has been shown. */
  function ApplyOffsets(s: State, e: Extras): State {
    if s.connected
    then s.(x := GetIntExtra(e, KEY_X_OFFSET, s.x), y := GetIntExtra(e, KEY_Y_OFFSET, s.y))
    else s
  }

  /** The session-change listener calling `refresh`. */
  function OnSessionsChanged(s: State, t: nat, sessions: seq<Controller>, icons: PackageIcons): State {
    Refresh(s.(now := t), sessions, icons)
  }

  /** `onPlaybackStateChanged` / `onMetadataChanged` of the registered
      callback: `sync` with the controller's current snapshot. */
  function OnControllerChanged(s: State, t: nat, c: Controller, icons: PackageIcons): State {
    Sync(s.(now := t), c, icons)
  }

  /** `onSessionDestroyed` of the registered callback. */
  function OnSessionDestroyed(s: State, t: nat): State {
    ClearMedia(s.(now := t))
  }

  /** `longPressRunnable?.let { mainHandler.removeCallbacks(it) }`. */
  function CancelLongPress(s: State): State {
    match s.longPressRunnable
    case None => s
    case Some(id) => s.(longPressQueue := Without(s.longPressQueue, id))
  }

  /** The touch listener. */
  function OnTouch(s: State, t: nat, a: MotionAction): State {
    TouchAction(s.(now := t), a)
  }

  /** The touch listener's reaction to one action, at the current time. */
  function TouchAction(s: State, a: MotionAction): State {
    match a
    case ActionDown => Press(s)
    case ActionUp => Release(CancelLongPress(s))
    case ActionCancel => CancelLongPress(s)
    case _ => s
  }

  /** ACTION_DOWN: clear `wasLongPress`, create a fresh long-press runnable
      and post it for `LONG_PRESS_MS` from now. */
  function Press(s: State): State {
    var id := s.nextRunnable;
    s.(wasLongPress := false, longPressRunnable := Some(id), nextRunnable := id + 1,
       longPressQueue := s.longPressQueue + [Posted(id, s.now + LONG_PRESS_MS)])
  }

  /** The tap rule of a release: nothing after a long press; otherwise
      visible controls are hidden with their pending hide, or else the
      expansion toggles. */
  function Release(s: State): State {
    if s.wasLongPress then s
    else if s.isControlsVisible then HideControlsNow(s)
    else s.(isExpanded := !s.isExpanded)
  }

  /** What the touch listener returns: only a release is consumed. */
  function TouchConsumed(a: MotionAction): bool {
    a == ActionUp
  }

  /** The previous/next control: forward to the bound controller, if any,
      then reset the hide timer. */
  function OnTransport(s: State, t: nat, next: bool): State {
    ResetControlsTimer(Forward(s.(now := t), next))
  }

  /** `activeController?.transportControls?.skipToNext()` (or previous):
      a command is sent only while a controller is bound. */
  function Forward(s: State, next: bool): State {
    match s.activeController
    case None => s
    case Some(id) => s.(sent := s.sent + [if next then SkipToNext(id) else SkipToPrevious(id)])
  }

  /** `onDestroy`: clear the media, drop the pending hide and remove the
      view, which disposes the composition and with it a pending collapse. */
  function OnDestroy(s: State, t: nat): State {
    RemoveView(ClearMedia(s.(now := t)))
  }

  /** The pending hide removed, then `removeView`, which disposes the
      composition and with it a pending collapse. */
  function RemoveView(s: State): State {
    s.(hideQueue := [], viewAttached := false, collapseAt := None)
  }

  // ---------------------------------------------------------------------
  // Timers firing; each sets the clock to its deadline

  /** The earliest long-press runnable runs: it reveals the controls only
      while music plays or the overlay is expanded. */
  function RunLongPress(s: State): State
    requires |s.longPressQueue| > 0
  {
    LongPressBody(s.(now := s.longPressQueue[0].deadline, longPressQueue := s.longPressQueue[1..]))
  }

  /** The long-press runnable's body: gated on music playing or the overlay
      being expanded, it shows the controls, marks the press as long and
      resets the hide timer. */
  function LongPressBody(s: State): (r: State)
    ensures !(s.isMusicPlaying || s.isExpanded) ==> r == s
    ensures s.isMusicPlaying || s.isExpanded ==>
              && r.isControlsVisible && r.wasLongPress
              && r.hideQueue == [s.now + HIDE_CONTROLS_MS]
              && HideExact(r)
    ensures r.(isControlsVisible := s.isControlsVisible, wasLongPress := s.wasLongPress,
               hideQueue := s.hideQueue) == s
  {
    if s.isMusicPlaying || s.isExpanded
    then ResetControlsTimer(s.(isControlsVisible := true, wasLongPress := true))
    else s
  }

  /** `hideControlsRunnable` runs. */
  function RunHideControls(s: State): State
    requires |s.hideQueue| > 0
  {
    s.(now := s.hideQueue[0], hideQueue := s.hideQueue[1..], isControlsVisible := false)
  }

  /** The collapse effect's delay ends: `onCollapse()`. */
  function RunCollapse(s: State): State
    requires s.collapseAt.Some?
  {
    s.(now := s.collapseAt.value, collapseAt := None, isExpanded := false)
  }

  // ---------------------------------------------------------------------
  // All steps

  datatype Input =
    | Connected(sessions: seq<Controller>, icons: PackageIcons)
    | StartIntent(intent: Option<Extras>)
    | SessionsChanged(sessions: seq<Controller>, icons: PackageIcons)
    | PlaybackChanged(callback: CallbackId, controller: Controller, icons: PackageIcons)
    | MetadataChanged(callback: CallbackId, controller: Controller, icons: PackageIcons)
    | SessionDestroyed(callback: CallbackId, session: SessionId)
    | Touch(action: MotionAction)
    | PrevTap
    | NextTap
    | Teardown

  datatype Step = Deliver(t: nat, input: Input) | LongPressDue | HideDue | CollapseDue

  /** When the platform can take a step: inputs in time order and before
      any overdue timer, callbacks only for a registered callback, touches
      and taps only on an attached view; a timer only when it is the
      earliest thing pending. */
  predicate Enabled(s: State, st: Step) {
    match st
    case Deliver(t, i) =>
      CanHandle(s, t) &&
      (match i
       case Connected(_, _) => !s.connected
       case StartIntent(_) => true
       case SessionsChanged(_, _) => s.sessionsListener
       case PlaybackChanged(cb, c, _) => Registration(c.id, cb) in s.registrations
       case MetadataChanged(cb, c, _) => Registration(c.id, cb) in s.registrations
       case SessionDestroyed(cb, id) => Registration(id, cb) in s.registrations
       case Touch(_) => s.viewAttached
       case PrevTap => s.viewAttached
       case NextTap => s.viewAttached
       case Teardown => true)
    case LongPressDue => |s.longPressQueue| > 0 && Quiet(s, s.longPressQueue[0].deadline)
    case HideDue => |s.hideQueue| > 0 && Quiet(s, s.hideQueue[0])
    case CollapseDue => s.collapseAt.Some? && Quiet(s, s.collapseAt.value)
  }

  function Next(s: State, st: Step): State
    requires Enabled(s, st)
  {
    match st
    case Deliver(t, i) =>
      (match i
       case Connected(sessions, icons) => OnServiceConnected(s, t, sessions, icons)
       case StartIntent(intent) => OnStartCommand(s.(now := t), intent)
       case SessionsChanged(sessions, icons) => OnSessionsChanged(s, t, sessions, icons)
       case PlaybackChanged(_, c, icons) => OnControllerChanged(s, t, c, icons)
       case MetadataChanged(_, c, icons) => OnControllerChanged(s, t, c, icons)
       case SessionDestroyed(_, _) => OnSessionDestroyed(s, t)
       case Touch(a) => OnTouch(s, t, a)
       case PrevTap => OnTransport(s, t, false)
       case NextTap => OnTransport(s, t, true)
       case Teardown => OnDestroy(s, t))
    case LongPressDue => RunLongPress(s)
    case HideDue => RunHideControls(s)
    case CollapseDue => RunCollapse(s)
  }

  /** The state after `steps`, or none if one of them is not enabled. */
  function Run(s: State, steps: seq<Step>): Option<State>
    decreases |steps|
  {
    if steps == [] then Some(s)
    else if Enabled(s, steps[0]) then Run(Next(s, steps[0]), steps[1..])
    else None
  }

  // ---------------------------------------------------------------------
  // The invariant every reachable state keeps

  /** Exactly one callback is registered while a controller is bound, on
      that controller; none otherwise. */
  predicate BindingExact(s: State) {
    && (s.activeController.Some? <==> s.mediaCallback.Some?)
    && s.registrations == (if s.activeController.Some? && s.mediaCallback.Some?
                           then multiset{Registration(s.activeController.value, s.mediaCallback.value)}
                           else multiset{})
  }

  /** The callback in use is older than every callback yet to be created,
      so a newly created one is never one already registered. */
  predicate CallbackFresh(s: State) {
    s.mediaCallback.Some? ==> s.mediaCallback.value < s.nextCallback
  }

  /** At most one hide is pending, and one is pending exactly while the
      controls are visible. */
  predicate HideExact(s: State) {
    |s.hideQueue| <= 1 && (s.isControlsVisible <==> |s.hideQueue| == 1)
  }

  /** A collapse is only pending while music is stopped and the overlay's
      composition exists. */
  predicate CollapseWhileStopped(s: State) {
    s.collapseAt.Some? ==> !s.isMusicPlaying && s.viewAttached
  }

  /** Without a bound controller the media fields are blank. */
  predicate IdleWithoutSession(s: State) {
    s.activeController.None? ==> !s.isMusicPlaying && s.albumArt.None? && s.appIcon.None?
  }

  predicate Inv(s: State) {
    && BindingExact(s)
    && CallbackFresh(s)
    && HideExact(s)
    && CollapseWhileStopped(s)
    && IdleWithoutSession(s)
    && Quiet(s, s.now)
  }
}
