/** What the overlay service promises, stated over the transitions of
    OverlayState: binding, teardown of a session, the debounced hide
    timer, press-and-release, the delayed collapse and live configuration. */
module OverlayProperties {
  import opened Values
  import opened MediaSessions
  import opened RenderTarget
  import opened OverlayState
  import opened OverlayInvariants

  // ---------------------------------------------------------------------
  // Binding

  /** Binding the controller already bound is a no-op: no re-register and
      no resync, so the one registration stays the callback already on
      that controller and the media fields keep their last synced values
      even if the controller's playback or metadata moved on meanwhile. */
  lemma BindSameControllerIsNoop(s: State, c: Controller, icons: PackageIcons)
    requires s.activeController == Some(c.id)
    ensures BindController(s, c, icons) == s
    ensures Inv(s) ==>
              && s.mediaCallback.Some?
              && BindController(s, c, icons).registrations == multiset{Registration(c.id, s.mediaCallback.value)}
  {
  }

  /** Binding another controller detaches the old callback, attaches exactly
      one new callback to the new controller and resyncs from it at once;
      the overlay's own flags and timers are left alone. */
  lemma BindOtherController(s: State, c: Controller, icons: PackageIcons)
    requires Inv(s) && s.activeController != Some(c.id)
    ensures var r := BindController(s, c, icons);
            && r.activeController == Some(c.id)
            && r.mediaCallback.Some?
            && r.registrations == multiset{Registration(c.id, r.mediaCallback.value)}
            && (s.mediaCallback.Some? ==> r.mediaCallback != s.mediaCallback)
            && (s.activeController.Some? && s.mediaCallback.Some? ==>
                  Registration(s.activeController.value, s.mediaCallback.value) !in r.registrations)
            && r.isMusicPlaying == IsActive(c.playback)
            && r.albumArt == ArtworkOf(c.metadata)
            && r.appIcon == IconOf(icons, c.packageName)
            && r.isExpanded == s.isExpanded
            && r.isControlsVisible == s.isControlsVisible
            && r.hideQueue == s.hideQueue
  {
    assert Unregistered(s) == multiset{};
    var a := Attach(s, c);
    assert a.registrations == multiset{Registration(c.id, s.nextCallback)};
    SyncTouchesOnlyMedia(a, c, icons);
  }

  /** `sync` writes the playing flag, the artwork and the icon, and through
      the playing flag possibly the pending collapse; nothing else. */
  lemma SyncTouchesOnlyMedia(s: State, c: Controller, icons: PackageIcons)
    ensures var r := Sync(s, c, icons);
            && r.isMusicPlaying == IsActive(c.playback)
            && r.albumArt == ArtworkOf(c.metadata)
            && r.appIcon == IconOf(icons, c.packageName)
            && r.(isMusicPlaying := s.isMusicPlaying, collapseAt := s.collapseAt,
                  albumArt := s.albumArt, appIcon := s.appIcon) == s
  {
  }

  /** `refresh` over an empty session list clears the media; over a
      non-empty one it binds the selected controller. */
  lemma RefreshBindsSelection(s: State, sessions: seq<Controller>, icons: PackageIcons)
    requires Inv(s)
    ensures sessions == [] ==> Refresh(s, sessions, icons) == ClearMedia(s)
    ensures sessions != [] ==> Refresh(s, sessions, icons).activeController == Some(Select(sessions).value.id)
  {
    if sessions != [] {
      var c := Select(sessions).value;
      if s.activeController != Some(c.id) {
        BindOtherController(s, c, icons);
      }
    }
  }

  /** A resync with an unchanged snapshot changes nothing more. */
  lemma SyncIdempotent(s: State, c: Controller, icons: PackageIcons)
    ensures Sync(Sync(s, c, icons), c, icons) == Sync(s, c, icons)
  {
    var d := SyncFields(c, icons);
    var r := Sync(s, c, icons);
    assert r.isMusicPlaying == d.playing;
    assert SetPlaying(r, d.playing) == r;
    assert r.albumArt == d.art && r.appIcon == d.icon;
  }

  /** After `clearMedia`: no controller and no callback, blank artwork and
      icon, music and controls off, the pending hide gone; the expansion
      and the sizes untouched. */
  lemma ClearMediaResets(s: State)
    requires Inv(s)
    ensures var r := ClearMedia(s);
            && r.activeController.None? && r.mediaCallback.None? && r.registrations == multiset{}
            && r.albumArt.None? && r.appIcon.None?
            && !r.isMusicPlaying && !r.isControlsVisible && r.hideQueue == []
            && r.isExpanded == s.isExpanded && SizingOf(r) == SizingOf(s)
  {
    ClearMediaKeepsInv(s);
  }

  /** A destroyed session is not replaced by another active one: the
      service stays unbound until the next session change. */
  lemma DestroyedSessionIsNotReplaced(s: State, t: nat, cb: CallbackId, id: SessionId)
    requires Inv(s) && Enabled(s, Deliver(t, SessionDestroyed(cb, id)))
    ensures s.activeController == Some(id)
    ensures Next(s, Deliver(t, SessionDestroyed(cb, id))).activeController.None?
    ensures Next(s, Deliver(t, SessionDestroyed(cb, id))).registrations == multiset{}
  {
    ClearMediaKeepsInv(s.(now := t));
  }

  // ---------------------------------------------------------------------
  // Controls auto-hide timer

  /** Resetting the timer leaves exactly one hide pending, due 1500 ms from
      now, when the controls are visible, and none otherwise: an earlier
      pending hide never survives. */
  lemma ResetTimerDebounces(s: State)
    ensures s.isControlsVisible ==> ResetControlsTimer(s).hideQueue == [s.now + HIDE_CONTROLS_MS]
    ensures !s.isControlsVisible ==> ResetControlsTimer(s).hideQueue == []
    ensures ResetControlsTimer(s).(hideQueue := s.hideQueue) == s
    ensures HideExact(ResetControlsTimer(s))
    ensures RenderOf(ResetControlsTimer(s)) == RenderOf(s)
  {
  }

  /** The hide firing only turns the controls off. */
  lemma HideOnlyHides(s: State)
    requires Inv(s) && Enabled(s, HideDue)
    ensures RunHideControls(s) == s.(now := s.hideQueue[0], hideQueue := [], isControlsVisible := false)
    ensures s.isControlsVisible
  {
  }

  /** A previous/next tap reaches the bound controller, if any, and
      re-arms the hide for 1500 ms after the tap. */
  lemma TransportForwardsAndRearms(s: State, t: nat, next: bool)
    requires Inv(s) && CanHandle(s, t)
    ensures var r := OnTransport(s, t, next);
            && (s.activeController.None? ==> r.sent == s.sent)
            && (s.activeController.Some? ==>
                  r.sent == s.sent + [if next then SkipToNext(s.activeController.value)
                                      else SkipToPrevious(s.activeController.value)])
            && (s.isControlsVisible ==> r.hideQueue == [t + HIDE_CONTROLS_MS])
            && (!s.isControlsVisible ==> r.hideQueue == [])
  {
  }

  // ---------------------------------------------------------------------
  // Press and release

  /** A press clears `wasLongPress` and posts a new long-press runnable due
      500 ms later; nothing else changes. */
  lemma DownArmsLongPress(s: State, t: nat)
    ensures var r := OnTouch(s, t, ActionDown);
            && !r.wasLongPress
            && r.longPressRunnable == Some(s.nextRunnable)
            && r.longPressQueue == s.longPressQueue + [Posted(s.nextRunnable, t + LONG_PRESS_MS)]
            && r.isExpanded == s.isExpanded && r.isControlsVisible == s.isControlsVisible
            && r.hideQueue == s.hideQueue
    ensures !TouchConsumed(ActionDown)
  {
  }

  /** The long press acts only while music plays or the overlay is
      expanded: it shows the controls, marks the press as long and arms the
      hide. Otherwise it does nothing at all. */
  lemma LongPressGated(s: State)
    requires Inv(s) && Enabled(s, LongPressDue)
    ensures var d := s.longPressQueue[0].deadline;
            var r := RunLongPress(s);
            && ((s.isMusicPlaying || s.isExpanded) ==>
                  r.isControlsVisible && r.wasLongPress && r.hideQueue == [d + HIDE_CONTROLS_MS])
            && (!(s.isMusicPlaying || s.isExpanded) ==>
                  r == s.(now := d, longPressQueue := s.longPressQueue[1..]))
            && r.isExpanded == s.isExpanded
  {
  }

  /** Release and cancel both withdraw the pending long press of this
      press. */
  lemma ReleaseCancelsLongPress(s: State, t: nat, a: MotionAction)
    requires a == ActionUp || a == ActionCancel
    requires s.longPressRunnable.Some?
    ensures forall p :: p in OnTouch(s, t, a).longPressQueue ==> p.runnable != s.longPressRunnable.value
  {
  }

  /** A release after a short press: visible controls are hidden (and
      their pending hide dropped) without touching the expansion; otherwise
      the expansion toggles. After a long press the release does neither. */
  lemma ReleaseRules(s: State, t: nat)
    ensures var r := OnTouch(s, t, ActionUp);
            && (s.wasLongPress ==>
                  r.isExpanded == s.isExpanded && r.isControlsVisible == s.isControlsVisible)
            && (!s.wasLongPress && s.isControlsVisible ==>
                  !r.isControlsVisible && r.hideQueue == [] && r.isExpanded == s.isExpanded)
            && (!s.wasLongPress && !s.isControlsVisible ==>
                  r.isExpanded == !s.isExpanded && !r.isControlsVisible)
    ensures TouchConsumed(ActionUp)
  {
    var c := CancelLongPress(s.(now := t));
    assert c.wasLongPress == s.wasLongPress && c.isControlsVisible == s.isControlsVisible;
    assert c.isExpanded == s.isExpanded;
  }

  /** Move and every other unnamed action change nothing but the clock. */
  lemma MoveIsIgnored(s: State, t: nat)
    ensures OnTouch(s, t, ActionMove) == s.(now := t)
    ensures OnTouch(s, t, ActionOther) == s.(now := t)
    ensures !TouchConsumed(ActionMove) && !TouchConsumed(ActionOther)
    ensures RenderOf(OnTouch(s, t, ActionMove)) == RenderOf(s)
    ensures Inv(s) && CanHandle(s, t) ==> Inv(OnTouch(s, t, ActionMove))
  {
  }

  // ---------------------------------------------------------------------
  // Delayed auto-collapse

  /** Music stopping while expanded schedules the collapse 700 ms later;
      music starting cancels a pending one; a write of the same value
      leaves it alone. */
  lemma PlayingChangeReschedulesCollapse(s: State, playing: bool)
    ensures playing == s.isMusicPlaying ==> SetPlaying(s, playing) == s
    ensures playing && !s.isMusicPlaying ==> SetPlaying(s, playing).collapseAt.None?
    ensures !playing && s.isMusicPlaying && s.isExpanded && s.viewAttached ==>
              SetPlaying(s, playing).collapseAt == Some(s.now + COLLAPSE_DELAY_MS)
    ensures !playing && s.isMusicPlaying && !s.isExpanded ==> SetPlaying(s, playing).collapseAt.None?
    ensures !playing && s.isMusicPlaying && !s.viewAttached ==> SetPlaying(s, playing).collapseAt.None?
  {
  }

  /** When the collapse fires it only folds the overlay; since a collapse
      is only pending while music is stopped, the overlay is then drawn as
      the idle circle. */
  lemma CollapseOnlyFolds(s: State)
    requires Enabled(s, CollapseDue)
    ensures RunCollapse(s) == s.(now := s.collapseAt.value, collapseAt := None, isExpanded := false)
    ensures Inv(s) ==> RenderOf(RunCollapse(s)).content.CircleDot?
    ensures Inv(s) ==> RenderOf(RunCollapse(s)).width == s.circleSize
  {
  }

  // ---------------------------------------------------------------------
  // Live configuration

  /** Each size takes its `Int` extra if the intent has one and keeps its
      value otherwise; the offsets change only once `params` exists; the
      media, the flags and the timers are untouched. */
  lemma StartCommandKeepsIfAbsent(s: State, e: Extras)
    ensures OnStartCommand(s, None) == s
    ensures var r := OnStartCommand(s, Some(e));
            && (KEY_H_PADDING !in e ==> r.hPadding == s.hPadding)
            && (KEY_V_PADDING !in e ==> r.vPadding == s.vPadding)
            && (KEY_HOLE_WIDTH !in e ==> r.holeWidth == s.holeWidth)
            && (KEY_PILL_HEIGHT !in e ==> r.pillHeight == s.pillHeight)
            && (KEY_CIRCLE_SIZE !in e ==> r.circleSize == s.circleSize)
            && (!s.connected || KEY_X_OFFSET !in e ==> r.x == s.x)
            && (!s.connected || KEY_Y_OFFSET !in e ==> r.y == s.y)
    ensures var r := OnStartCommand(s, Some(e));
            && (KEY_H_PADDING in e && e[KEY_H_PADDING].IntExtra? ==> r.hPadding == e[KEY_H_PADDING].v)
            && (KEY_V_PADDING in e && e[KEY_V_PADDING].IntExtra? ==> r.vPadding == e[KEY_V_PADDING].v)
            && (KEY_HOLE_WIDTH in e && e[KEY_HOLE_WIDTH].IntExtra? ==> r.holeWidth == e[KEY_HOLE_WIDTH].v)
            && (KEY_PILL_HEIGHT in e && e[KEY_PILL_HEIGHT].IntExtra? ==> r.pillHeight == e[KEY_PILL_HEIGHT].v)
            && (KEY_CIRCLE_SIZE in e && e[KEY_CIRCLE_SIZE].IntExtra? ==> r.circleSize == e[KEY_CIRCLE_SIZE].v)
            && (s.connected && KEY_X_OFFSET in e && e[KEY_X_OFFSET].IntExtra? ==> r.x == e[KEY_X_OFFSET].v)
            && (s.connected && KEY_Y_OFFSET in e && e[KEY_Y_OFFSET].IntExtra? ==> r.y == e[KEY_Y_OFFSET].v)
    ensures var r := OnStartCommand(s, Some(e));
            r.(hPadding := s.hPadding, vPadding := s.vPadding, holeWidth := s.holeWidth,
               pillHeight := s.pillHeight, circleSize := s.circleSize, x := s.x, y := s.y) == s
  {
    var sized := ApplySizes(s, e);
    assert sized.connected == s.connected && sized.x == s.x && sized.y == s.y;
    assert OnStartCommand(s, Some(e)) == ApplyOffsets(sized, e);
    IntExtraOrDefault(e, KEY_H_PADDING, s.hPadding);
    IntExtraOrDefault(e, KEY_V_PADDING, s.vPadding);
    IntExtraOrDefault(e, KEY_HOLE_WIDTH, s.holeWidth);
    IntExtraOrDefault(e, KEY_PILL_HEIGHT, s.pillHeight);
    IntExtraOrDefault(e, KEY_CIRCLE_SIZE, s.circleSize);
    IntExtraOrDefault(e, KEY_X_OFFSET, s.x);
    IntExtraOrDefault(e, KEY_Y_OFFSET, s.y);
  }

  /** `getIntExtra` returns the extra when the intent holds an `Int` under
      the key and the default when the key is missing. */
  lemma IntExtraOrDefault(e: Extras, key: string, default: int32)
    ensures key !in e ==> GetIntExtra(e, key, default) == default
    ensures key in e && e[key].IntExtra? ==> GetIntExtra(e, key, default) == e[key].v
  {
  }

  /** Delivering the same configuration twice is the same as once. */
  lemma StartCommandIdempotent(s: State, intent: Option<Extras>)
    ensures OnStartCommand(OnStartCommand(s, intent), intent) == OnStartCommand(s, intent)
  {
    if intent.Some? {
      var e := intent.value;
      var r := OnStartCommand(s, intent);
      var r2 := OnStartCommand(r, intent);
      assert r2.hPadding == r.hPadding && r2.vPadding == r.vPadding && r2.holeWidth == r.holeWidth;
      assert r2.pillHeight == r.pillHeight && r2.circleSize == r.circleSize;
      assert r2.x == r.x && r2.y == r.y;
    }
  }

  // ---------------------------------------------------------------------
  // Render targets

  /** The overlay is a pill exactly while it is expanded or music plays;
      each slot shows a control exactly while the controls are visible. */
  lemma RenderFollowsState(s: State)
    ensures RenderOf(s).content.PillSlots? <==> s.isExpanded || s.isMusicPlaying
    ensures RenderOf(s).content.PillSlots? ==>
              RenderOf(s).width == TotalPillWidth(s.holeWidth, s.hPadding) && RenderOf(s).height == s.pillHeight
    ensures RenderOf(s).content.CircleDot? ==> RenderOf(s).width == s.circleSize && RenderOf(s).height == s.circleSize
    ensures RenderOf(s).content.PillSlots? ==>
              && RenderOf(s).content.left == LeftSlot(s.isControlsVisible, s.albumArt)
              && RenderOf(s).content.right == RightSlot(s.isControlsVisible, s.appIcon)
  {
  }
}
