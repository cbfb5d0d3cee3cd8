/** Every step of the overlay state machine keeps `Inv`: one callback per
    bound controller and none otherwise, at most one pending hide and one
    exactly while the controls show, a pending collapse only while music
    is stopped, blank media fields without a session, no timer overdue. */
module OverlayInvariants {
  import opened Values
  import opened MediaSessions
  import opened OverlayState

  lemma InitialSatisfiesInv()
    ensures Inv(Initial())
  {
  }

  /** A platform callback can only reach the bound controller's callback. */
  lemma RegisteredIsBound(s: State, id: SessionId, cb: CallbackId)
    requires Inv(s) && Registration(id, cb) in s.registrations
    ensures s.activeController == Some(id) && s.mediaCallback == Some(cb)
  {
  }

  lemma SetPlayingKeepsQuiet(s: State, playing: bool)
    requires Quiet(s, s.now)
    ensures Quiet(SetPlaying(s, playing), s.now)
  {
  }

  lemma ClearMediaKeepsInv(s: State)
    requires Inv(s)
    ensures Inv(ClearMedia(s))
    ensures ClearMedia(s).registrations == multiset{}
  {
    SetPlayingKeepsQuiet(Detach(s), false);
  }

  lemma SyncKeepsInv(s: State, c: Controller, icons: PackageIcons)
    requires Inv(s) && s.activeController.Some?
    ensures Inv(Sync(s, c, icons))
  {
    SetPlayingKeepsQuiet(s, SyncFields(c, icons).playing);
  }

  lemma BindKeepsInv(s: State, c: Controller, icons: PackageIcons)
    requires Inv(s)
    ensures Inv(BindController(s, c, icons))
  {
    if s.activeController != Some(c.id) {
      assert Unregistered(s) == multiset{};
      var bound := Attach(s, c);
      assert bound.registrations == multiset{Registration(c.id, s.nextCallback)};
      SyncKeepsInv(bound, c, icons);
    }
  }

  lemma RefreshKeepsInv(s: State, sessions: seq<Controller>, icons: PackageIcons)
    requires Inv(s)
    ensures Inv(Refresh(s, sessions, icons))
  {
    match Select(sessions)
    case Some(c) => BindKeepsInv(s, c, icons);
    case None => ClearMediaKeepsInv(s);
  }

  lemma ConnectedKeepsInv(s: State, t: nat, sessions: seq<Controller>, icons: PackageIcons)
    requires Inv(s) && CanHandle(s, t)
    ensures Inv(OnServiceConnected(s, t, sessions, icons))
  {
    var shown := ShowOverlay(s.(now := t));
    assert Inv(s.(now := t));
    assert Inv(shown);
    RefreshKeepsInv(shown, sessions, icons);
  }

  lemma CancelLongPressKeepsInv(s: State)
    requires Inv(s)
    ensures Inv(CancelLongPress(s))
  {
    if s.longPressRunnable.Some? {
      var q := Without(s.longPressQueue, s.longPressRunnable.value);
      forall p | p in q ensures s.now <= p.deadline {
        assert p in s.longPressQueue;
      }
    }
  }

  lemma PressKeepsInv(s: State)
    requires Inv(s)
    ensures Inv(Press(s))
  {
    var id := s.nextRunnable;
    var q := s.longPressQueue + [Posted(id, s.now + LONG_PRESS_MS)];
    forall p | p in q ensures s.now <= p.deadline {
      if p !in s.longPressQueue { assert p == Posted(id, s.now + LONG_PRESS_MS); }
    }
  }

  lemma ReleaseKeepsInv(s: State)
    requires Inv(s)
    ensures Inv(Release(CancelLongPress(s)))
  {
    CancelLongPressKeepsInv(s);
    var released := CancelLongPress(s);
    if !released.wasLongPress {
      if released.isControlsVisible {
        assert Inv(released.(isControlsVisible := false, hideQueue := []));
      } else {
        assert Inv(released.(isExpanded := !released.isExpanded));
      }
    }
  }

  lemma TouchKeepsInv(s: State, t: nat, a: MotionAction)
    requires Inv(s) && CanHandle(s, t)
    ensures Inv(OnTouch(s, t, a))
  {
    var s' := s.(now := t);
    assert Inv(s');
    match a
    case ActionDown => PressKeepsInv(s');
    case ActionUp => ReleaseKeepsInv(s');
    case ActionCancel => CancelLongPressKeepsInv(s');
    case ActionMove =>
    case ActionOther =>
  }

  lemma TransportKeepsInv(s: State, t: nat, next: bool)
    requires Inv(s) && CanHandle(s, t)
    ensures Inv(OnTransport(s, t, next))
  {
    var s' := s.(now := t);
    assert Inv(s');
    assert Inv(Forward(s', next));
  }

  lemma DestroyKeepsInv(s: State, t: nat)
    requires Inv(s) && CanHandle(s, t)
    ensures Inv(OnDestroy(s, t))
  {
    assert Inv(s.(now := t));
    ClearMediaKeepsInv(s.(now := t));
    var cleared := ClearMedia(s.(now := t));
    assert !cleared.isControlsVisible;
  }

  lemma StartCommandKeepsInv(s: State, t: nat, intent: Option<Extras>)
    requires Inv(s) && CanHandle(s, t)
    ensures Inv(OnStartCommand(s.(now := t), intent))
  {
    var s' := s.(now := t);
    assert Inv(s');
    if intent.Some? {
      var sized := ApplySizes(s', intent.value);
      assert Inv(sized);
    }
  }

  lemma RunLongPressKeepsInv(s: State)
    requires Inv(s) && Enabled(s, LongPressDue)
    ensures Inv(RunLongPress(s))
  {
    var q := s.longPressQueue;
    forall p | p in q[1..] ensures q[0].deadline <= p.deadline {
      assert p in q;
    }
  }

  lemma RunHideKeepsInv(s: State)
    requires Inv(s) && Enabled(s, HideDue)
    ensures Inv(RunHideControls(s))
  {
  }

  lemma RunCollapseKeepsInv(s: State)
    requires Inv(s) && Enabled(s, CollapseDue)
    ensures Inv(RunCollapse(s))
  {
  }

  lemma SessionsChangedKeepsInv(s: State, t: nat, sessions: seq<Controller>, icons: PackageIcons)
    requires Inv(s) && CanHandle(s, t)
    ensures Inv(OnSessionsChanged(s, t, sessions, icons))
  {
    assert Inv(s.(now := t));
    RefreshKeepsInv(s.(now := t), sessions, icons);
  }

  lemma ControllerChangedKeepsInv(s: State, t: nat, cb: CallbackId, c: Controller, icons: PackageIcons)
    requires Inv(s) && CanHandle(s, t) && Registration(c.id, cb) in s.registrations
    ensures Inv(OnControllerChanged(s, t, c, icons))
  {
    assert Inv(s.(now := t));
    SyncKeepsInv(s.(now := t), c, icons);
  }

  lemma SessionDestroyedKeepsInv(s: State, t: nat)
    requires Inv(s) && CanHandle(s, t)
    ensures Inv(OnSessionDestroyed(s, t))
  {
    assert Inv(s.(now := t));
    ClearMediaKeepsInv(s.(now := t));
  }

  lemma StepKeepsInv(s: State, st: Step)
    requires Inv(s) && Enabled(s, st)
    ensures Inv(Next(s, st))
  {
    match st
    case Deliver(t, i) =>
      match i {
        case Connected(sessions, icons) => ConnectedKeepsInv(s, t, sessions, icons);
        case StartIntent(intent) => StartCommandKeepsInv(s, t, intent);
        case SessionsChanged(sessions, icons) => SessionsChangedKeepsInv(s, t, sessions, icons);
        case PlaybackChanged(cb, c, icons) => ControllerChangedKeepsInv(s, t, cb, c, icons);
        case MetadataChanged(cb, c, icons) => ControllerChangedKeepsInv(s, t, cb, c, icons);
        case SessionDestroyed(_, _) => SessionDestroyedKeepsInv(s, t);
        case Touch(a) => TouchKeepsInv(s, t, a);
        case PrevTap => TransportKeepsInv(s, t, false);
        case NextTap => TransportKeepsInv(s, t, true);
        case Teardown => DestroyKeepsInv(s, t);
      }
    case LongPressDue => RunLongPressKeepsInv(s);
    case HideDue => RunHideKeepsInv(s);
    case CollapseDue => RunCollapseKeepsInv(s);
  }

  /** Every state a run reaches from an invariant state satisfies the
      invariant; from `Initial()` that is every reachable state. */
  lemma {:induction false} RunKeepsInv(s: State, steps: seq<Step>)
    requires Inv(s)
    ensures Run(s, steps).Some? ==> Inv(Run(s, steps).value)
    decreases |steps|
  {
    if steps != [] && Enabled(s, steps[0]) {
      StepKeepsInv(s, steps[0]);
      RunKeepsInv(Next(s, steps[0]), steps[1..]);
    }
  }

  /** In every reachable state at most one callback is registered, and it
      belongs to the bound controller. */
  lemma ReachableBindingExact(steps: seq<Step>)
    requires Run(Initial(), steps).Some?
    ensures BindingExact(Run(Initial(), steps).value)
    ensures HideExact(Run(Initial(), steps).value)
  {
    InitialSatisfiesInv();
    RunKeepsInv(Initial(), steps);
  }
}
