/** `OverlayService` as an object whose handlers update its fields in place.
    Besides the service's own fields it holds what the platform keeps on its
    behalf: the callbacks registered with controllers, the main-thread
    handler's pending messages, the pending collapse of the composition and
    the transport commands sent. Each handler is proved to leave the object
    in the state the matching transition of OverlayState gives, and to keep
    the invariant `OverlayState.Inv`. */
module Service {
  import opened Values
  import opened MediaSessions
  import S = OverlayState
  import OverlayInvariants

  class OverlayService {
    var now: nat
    // window
    var connected: bool
    var viewAttached: bool
    var x: int32
    var y: int32
    // media-session binding
    var sessionsListener: bool
    var activeController: Option<SessionId>
    var mediaCallback: Option<S.CallbackId>
    var nextCallback: S.CallbackId
    var registrations: multiset<S.Registration>
    // observable state
    var albumArt: Option<Bitmap>
    var appIcon: Option<Drawable>
    var isMusicPlaying: bool
    var isExpanded: bool
    var isControlsVisible: bool
    // slider-controlled sizes
    var hPadding: int32
    var vPadding: int32
    var holeWidth: int32
    var pillHeight: int32
    var circleSize: int32
    // the touch listener's captured locals
    var wasLongPress: bool
    var longPressRunnable: Option<S.RunnableId>
    var nextRunnable: S.RunnableId
    // pending main-thread messages, the pending collapse, commands sent
    var hideQueue: seq<nat>
    var longPressQueue: seq<S.Posted>
    var collapseAt: Option<nat>
    var sent: seq<S.Command>

    /** The object's state as a value. */
    ghost function View(): S.State
      reads this
    {
      S.State(now, connected, viewAttached, x, y,
              sessionsListener, activeController, mediaCallback, nextCallback, registrations,
              albumArt, appIcon, isMusicPlaying, isExpanded, isControlsVisible,
              hPadding, vPadding, holeWidth, pillHeight, circleSize,
              wasLongPress, longPressRunnable, nextRunnable,
              hideQueue, longPressQueue, collapseAt, sent)
    }

    ghost predicate Valid()
      reads this
    {
      S.Inv(View())
    }

    /** The field initialisers. */
    constructor ()
      ensures View() == S.Initial() && Valid()
    {
      now := 0;
      connected, viewAttached, x, y := false, false, 0, 0;
      sessionsListener := false;
      activeController, mediaCallback, nextCallback, registrations := None, None, 0, multiset{};
      albumArt, appIcon := None, None;
      isMusicPlaying, isExpanded, isControlsVisible := false, false, false;
      hPadding, vPadding, holeWidth, pillHeight, circleSize := 14, 4, 60, 36, 36;
      wasLongPress, longPressRunnable, nextRunnable := false, None, 0;
      hideQueue, longPressQueue, collapseAt, sent := [], [], None, [];
    }

    // -------------------------------------------------------------------
    // Single writes. Every handler below is a sequence of these, one per
    // write the service (or the platform on its behalf) makes. Each setter
    // states its effect on View() once, so a handler's proof composes these
    // small frame facts instead of reasoning about many field stores in one
    // method body, which keeps the verifier's cost per handler low.

    /** The clock moves to the time of the input being handled. */
    method SetClock(v: nat)
      modifies this
      ensures View() == old(View()).(now := v)
    {
      now := v;
    }

    method SetConnected(v: bool)
      modifies this
      ensures View() == old(View()).(connected := v)
    {
      connected := v;
    }

    method SetViewAttached(v: bool)
      modifies this
      ensures View() == old(View()).(viewAttached := v)
    {
      viewAttached := v;
    }

    method SetX(v: int32)
      modifies this
      ensures View() == old(View()).(x := v)
    {
      x := v;
    }

    method SetY(v: int32)
      modifies this
      ensures View() == old(View()).(y := v)
    {
      y := v;
    }

    method SetSessionsListener(v: bool)
      modifies this
      ensures View() == old(View()).(sessionsListener := v)
    {
      sessionsListener := v;
    }

    method SetActiveController(v: Option<SessionId>)
      modifies this
      ensures View() == old(View()).(activeController := v)
    {
      activeController := v;
    }

    method SetMediaCallback(v: Option<S.CallbackId>)
      modifies this
      ensures View() == old(View()).(mediaCallback := v)
    {
      mediaCallback := v;
    }

    method SetNextCallback(v: S.CallbackId)
      modifies this
      ensures View() == old(View()).(nextCallback := v)
    {
      nextCallback := v;
    }

    method SetRegistrations(v: multiset<S.Registration>)
      modifies this
      ensures View() == old(View()).(registrations := v)
    {
      registrations := v;
    }

    method SetAlbumArt(v: Option<Bitmap>)
      modifies this
      ensures View() == old(View()).(albumArt := v)
    {
      albumArt := v;
    }

    method SetAppIcon(v: Option<Drawable>)
      modifies this
      ensures View() == old(View()).(appIcon := v)
    {
      appIcon := v;
    }

    method SetIsMusicPlaying(v: bool)
      modifies this
      ensures View() == old(View()).(isMusicPlaying := v)
    {
      isMusicPlaying := v;
    }

    method SetIsExpanded(v: bool)
      modifies this
      ensures View() == old(View()).(isExpanded := v)
    {
      isExpanded := v;
    }

    method SetIsControlsVisible(v: bool)
      modifies this
      ensures View() == old(View()).(isControlsVisible := v)
    {
      isControlsVisible := v;
    }

    method SetHPadding(v: int32)
      modifies this
      ensures View() == old(View()).(hPadding := v)
    {
      hPadding := v;
    }

    method SetVPadding(v: int32)
      modifies this
      ensures View() == old(View()).(vPadding := v)
    {
      vPadding := v;
    }

    method SetHoleWidth(v: int32)
      modifies this
      ensures View() == old(View()).(holeWidth := v)
    {
      holeWidth := v;
    }

    method SetPillHeight(v: int32)
      modifies this
      ensures View() == old(View()).(pillHeight := v)
    {
      pillHeight := v;
    }

    method SetCircleSize(v: int32)
      modifies this
      ensures View() == old(View()).(circleSize := v)
    {
      circleSize := v;
    }

    method SetWasLongPress(v: bool)
      modifies this
      ensures View() == old(View()).(wasLongPress := v)
    {
      wasLongPress := v;
    }

    method SetLongPressRunnable(v: Option<S.RunnableId>)
      modifies this
      ensures View() == old(View()).(longPressRunnable := v)
    {
      longPressRunnable := v;
    }

    method SetNextRunnable(v: S.RunnableId)
      modifies this
      ensures View() == old(View()).(nextRunnable := v)
    {
      nextRunnable := v;
    }

    method SetHideQueue(v: seq<nat>)
      modifies this
      ensures View() == old(View()).(hideQueue := v)
    {
      hideQueue := v;
    }

    method SetLongPressQueue(v: seq<S.Posted>)
      modifies this
      ensures View() == old(View()).(longPressQueue := v)
    {
      longPressQueue := v;
    }

    method SetCollapseAt(v: Option<nat>)
      modifies this
      ensures View() == old(View()).(collapseAt := v)
    {
      collapseAt := v;
    }

    method SetSent(v: seq<S.Command>)
      modifies this
      ensures View() == old(View()).(sent := v)
    {
      sent := v;
    }

    // -------------------------------------------------------------------
    // Helpers the handlers share

    /** A write to `isMusicPlaying`, with the restart of the collapse effect
        a change of its key causes. */
    method SetMusicPlaying(playing: bool)
      modifies this
      ensures View() == S.SetPlaying(old(View()), playing)
    {
      if playing != isMusicPlaying {
        SetIsMusicPlaying(playing);
        SetCollapseAt(if !playing && isExpanded && viewAttached then Some(now + S.COLLAPSE_DELAY_MS) else None);
      }
    }

    /** `resetControlsTimer`: remove the pending hide, then post a new one
        if the controls are showing. */
    method ResetControlsTimer()
      modifies this
      ensures View() == S.ResetControlsTimer(old(View()))
    {
      SetHideQueue([]);
      if isControlsVisible {
        SetHideQueue(hideQueue + [now + S.HIDE_CONTROLS_MS]);
      }
    }

    /** The `sync` closure over a controller's current snapshot. */
    method Sync(c: Controller, icons: PackageIcons)
      modifies this
      ensures View() == S.Sync(old(View()), c, icons)
    {
      SetMusicPlaying(IsActive(c.playback));
      SetAlbumArt(ArtworkOf(c.metadata));
      SetAppIcon(IconOf(icons, c.packageName));
    }

    method UnregisterCallback()
      modifies this
      ensures View() == old(View()).(registrations := S.Unregistered(old(View())))
    {
      if mediaCallback.Some? && activeController.Some? {
        SetRegistrations(registrations - multiset{S.Registration(activeController.value, mediaCallback.value)});
      }
    }

    method BindController(c: Controller, icons: PackageIcons)
      modifies this
      ensures View() == S.BindController(old(View()), c, icons)
    {
      if activeController == Some(c.id) {
        return;
      }
      Attach(c);
      Sync(c, icons);
    }

    /** Unregister the old callback, adopt `c`, create a callback object
        and register it on `c`. */
    method Attach(c: Controller)
      modifies this
      ensures View() == S.Attach(old(View()), c)
    {
      UnregisterCallback();
      SetActiveController(Some(c.id));
      var cb := nextCallback;
      SetNextCallback(cb + 1);
      SetMediaCallback(Some(cb));
      SetRegistrations(registrations + multiset{S.Registration(c.id, cb)});
    }

    method ClearMedia()
      modifies this
      ensures View() == S.ClearMedia(old(View()))
    {
      Detach();
      SetMusicPlaying(false);
      HideControlsNow();
    }

    method Detach()
      modifies this
      ensures View() == S.Detach(old(View()))
    {
      UnregisterCallback();
      SetActiveController(None);
      SetMediaCallback(None);
      SetAlbumArt(None);
      SetAppIcon(None);
    }

    method HideControlsNow()
      modifies this
      ensures View() == S.HideControlsNow(old(View()))
    {
      SetIsControlsVisible(false);
      SetHideQueue([]);
    }

    method Refresh(sessions: seq<Controller>, icons: PackageIcons)
      modifies this
      ensures View() == S.Refresh(old(View()), sessions, icons)
    {
      var controller := Select(sessions);
      if controller.Some? {
        BindController(controller.value, icons);
      } else {
        ClearMedia();
      }
    }

    method CancelLongPress()
      modifies this
      ensures View() == S.CancelLongPress(old(View()))
    {
      if longPressRunnable.Some? {
        SetLongPressQueue(S.Without(longPressQueue, longPressRunnable.value));
      }
    }

    // -------------------------------------------------------------------
    // Platform entry points

    method OnServiceConnected(t: nat, sessions: seq<Controller>, icons: PackageIcons)
      requires Valid() && S.CanHandle(View(), t) && !connected
      modifies this
      ensures View() == S.OnServiceConnected(old(View()), t, sessions, icons) && Valid()
    {
      SetClock(t);
      ShowOverlay();
      Refresh(sessions, icons);
      SetSessionsListener(true);
      OverlayInvariants.ConnectedKeepsInv(old(View()), t, sessions, icons);
    }

    /** `showOverlay`: the touch listener's locals start fresh, new layout
        parameters are made at offset (0, 0) and the view is added. */
    method ShowOverlay()
      modifies this
      ensures View() == S.ShowOverlay(old(View()))
    {
      SetLongPressRunnable(None);
      SetWasLongPress(false);
      SetConnected(true);
      SetX(0);
      SetY(0);
      SetViewAttached(true);
    }

    method OnStartCommand(t: nat, intent: Option<S.Extras>) returns (r: int)
      requires Valid() && S.CanHandle(View(), t)
      modifies this
      ensures View() == S.OnStartCommand(old(View()).(now := t), intent) && Valid()
      ensures r == S.START_STICKY
    {
      SetClock(t);
      if intent.Some? {
        ApplySizes(intent.value);
        ApplyOffsets(intent.value);
      }
      r := S.START_STICKY;
      OverlayInvariants.StartCommandKeepsInv(old(View()), t, intent);
    }

    method ApplySizes(e: S.Extras)
      modifies this
      ensures View() == S.ApplySizes(old(View()), e)
    {
      SetHPadding(S.GetIntExtra(e, S.KEY_H_PADDING, hPadding));
      SetVPadding(S.GetIntExtra(e, S.KEY_V_PADDING, vPadding));
      SetHoleWidth(S.GetIntExtra(e, S.KEY_HOLE_WIDTH, holeWidth));
      SetPillHeight(S.GetIntExtra(e, S.KEY_PILL_HEIGHT, pillHeight));
      SetCircleSize(S.GetIntExtra(e, S.KEY_CIRCLE_SIZE, circleSize));
    }

    /** The offsets, only once `params` exists; the layout update that
        follows is best-effort and not modelled. */
    method ApplyOffsets(e: S.Extras)
      modifies this
      ensures View() == S.ApplyOffsets(old(View()), e)
    {
      if connected {
        SetX(S.GetIntExtra(e, S.KEY_X_OFFSET, x));
        SetY(S.GetIntExtra(e, S.KEY_Y_OFFSET, y));
      }
    }

    method OnSessionsChanged(t: nat, sessions: seq<Controller>, icons: PackageIcons)
      requires Valid() && S.CanHandle(View(), t) && sessionsListener
      modifies this
      ensures View() == S.OnSessionsChanged(old(View()), t, sessions, icons) && Valid()
    {
      SetClock(t);
      Refresh(sessions, icons);
      OverlayInvariants.SessionsChangedKeepsInv(old(View()), t, sessions, icons);
    }

    method OnPlaybackStateChanged(t: nat, cb: S.CallbackId, c: Controller, icons: PackageIcons)
      requires Valid() && S.CanHandle(View(), t) && S.Registration(c.id, cb) in registrations
      modifies this
      ensures View() == S.OnControllerChanged(old(View()), t, c, icons) && Valid()
    {
      SetClock(t);
      Sync(c, icons);
      OverlayInvariants.ControllerChangedKeepsInv(old(View()), t, cb, c, icons);
    }

    method OnMetadataChanged(t: nat, cb: S.CallbackId, c: Controller, icons: PackageIcons)
      requires Valid() && S.CanHandle(View(), t) && S.Registration(c.id, cb) in registrations
      modifies this
      ensures View() == S.OnControllerChanged(old(View()), t, c, icons) && Valid()
    {
      SetClock(t);
      Sync(c, icons);
      OverlayInvariants.ControllerChangedKeepsInv(old(View()), t, cb, c, icons);
    }

    method OnSessionDestroyed(t: nat, cb: S.CallbackId, id: SessionId)
      requires Valid() && S.CanHandle(View(), t) && S.Registration(id, cb) in registrations
      modifies this
      ensures View() == S.OnSessionDestroyed(old(View()), t) && Valid()
    {
      SetClock(t);
      ClearMedia();
      OverlayInvariants.SessionDestroyedKeepsInv(old(View()), t);
    }

    /** The touch listener; returns whether the event was consumed. */
    method OnTouch(t: nat, a: S.MotionAction) returns (consumed: bool)
      requires Valid() && S.CanHandle(View(), t) && viewAttached
      modifies this
      ensures View() == S.OnTouch(old(View()), t, a) && Valid()
      ensures consumed == S.TouchConsumed(a)
    {
      SetClock(t);
      TouchAction(a);
      consumed := a == S.ActionUp;
      OverlayInvariants.TouchKeepsInv(old(View()), t, a);
    }

    method TouchAction(a: S.MotionAction)
      modifies this
      ensures View() == S.TouchAction(old(View()), a)
    {
      match a
      case ActionDown => PostLongPress();
      case ActionUp =>
        CancelLongPress();
        Release();
      case ActionCancel => CancelLongPress();
      case ActionMove =>
      case ActionOther =>
    }

    /** ACTION_DOWN: clear `wasLongPress`, create a long-press runnable and
        post it for 500 ms from now. */
    method PostLongPress()
      modifies this
      ensures View() == S.Press(old(View()))
    {
      SetWasLongPress(false);
      var id := nextRunnable;
      SetNextRunnable(id + 1);
      SetLongPressRunnable(Some(id));
      SetLongPressQueue(longPressQueue + [S.Posted(id, now + S.LONG_PRESS_MS)]);
    }

    /** The tap rule: unless the press was long, hide visible controls or
        else toggle the expansion. */
    method Release()
      modifies this
      ensures View() == S.Release(old(View()))
    {
      if !wasLongPress {
        if isControlsVisible {
          HideControlsNow();
        } else {
          SetIsExpanded(!isExpanded);
        }
      }
    }

    method OnPrev(t: nat)
      requires Valid() && S.CanHandle(View(), t) && viewAttached
      modifies this
      ensures View() == S.OnTransport(old(View()), t, false) && Valid()
    {
      SetClock(t);
      Forward(false);
      ResetControlsTimer();
      OverlayInvariants.TransportKeepsInv(old(View()), t, false);
    }

    method OnNext(t: nat)
      requires Valid() && S.CanHandle(View(), t) && viewAttached
      modifies this
      ensures View() == S.OnTransport(old(View()), t, true) && Valid()
    {
      SetClock(t);
      Forward(true);
      ResetControlsTimer();
      OverlayInvariants.TransportKeepsInv(old(View()), t, true);
    }

    method Forward(next: bool)
      modifies this
      ensures View() == S.Forward(old(View()), next)
    {
      if activeController.Some? {
        SetSent(sent + [if next then S.SkipToNext(activeController.value) else S.SkipToPrevious(activeController.value)]);
      }
    }

    /** `onDestroy`: clear the media, then remove the pending hide and the
        view. */
    method OnDestroy(t: nat)
      requires Valid() && S.CanHandle(View(), t)
      modifies this
      ensures View() == S.OnDestroy(old(View()), t) && Valid()
    {
      SetClock(t);
      ClearMedia();
      RemoveView();
      OverlayInvariants.DestroyKeepsInv(old(View()), t);
    }

    method RemoveView()
      modifies this
      ensures View() == S.RemoveView(old(View()))
    {
      SetHideQueue([]);
      SetViewAttached(false);
      SetCollapseAt(None);
    }

    // -------------------------------------------------------------------
    // Timers firing

    method RunLongPress()
      requires Valid() && S.Enabled(View(), S.LongPressDue)
      modifies this
      ensures View() == S.RunLongPress(old(View())) && Valid()
    {
      var due := longPressQueue[0];
      SetClock(due.deadline);
      SetLongPressQueue(longPressQueue[1..]);
      LongPressBody();
      OverlayInvariants.RunLongPressKeepsInv(old(View()));
    }

    method LongPressBody()
      modifies this
      ensures View() == S.LongPressBody(old(View()))
    {
      if isMusicPlaying || isExpanded {
        SetIsControlsVisible(true);
        SetWasLongPress(true);
        ResetControlsTimer();
      }
    }

    method RunHideControls()
      requires Valid() && S.Enabled(View(), S.HideDue)
      modifies this
      ensures View() == S.RunHideControls(old(View())) && Valid()
    {
      var due := hideQueue[0];
      SetClock(due);
      SetHideQueue(hideQueue[1..]);
      SetIsControlsVisible(false);
      OverlayInvariants.RunHideKeepsInv(old(View()));
    }

    method RunCollapse()
      requires Valid() && S.Enabled(View(), S.CollapseDue)
      modifies this
      ensures View() == S.RunCollapse(old(View())) && Valid()
    {
      var due := collapseAt.value;
      SetClock(due);
      SetCollapseAt(None);
      SetIsExpanded(false);
      OverlayInvariants.RunCollapseKeepsInv(old(View()));
    }
  }
}
