/** Whole interactions, run step by step through `Run`: a tap, a long
    press while playing, playback stopping while expanded, and the places
    where what the code does is not what one might expect of it. */
module OverlayScenarios {
  import opened Values
  import opened MediaSessions
  import opened RenderTarget
  import opened OverlayState
  import opened OverlayInvariants
  import opened OverlayProperties

  /** Press and release 200 ms later with the controls hidden: the overlay
      expands. */
  lemma TapExpands(s: State, t: nat)
    requires Inv(s) && s.viewAttached && CanHandle(s, t) && Quiet(s, t + 200)
    requires !s.isControlsVisible && !s.isExpanded
    ensures var r := Run(s, [Deliver(t, Touch(ActionDown)), Deliver(t + 200, Touch(ActionUp))]);
            r.Some? && r.value.isExpanded && !r.value.isControlsVisible
  {
    var s1 := Next(s, Deliver(t, Touch(ActionDown)));
    TouchKeepsInv(s, t, ActionDown);
    assert Enabled(s1, Deliver(t + 200, Touch(ActionUp)));
    var s2 := Next(s1, Deliver(t + 200, Touch(ActionUp)));
    ReleaseRules(s1, t + 200);
    assert Run(s2, []) == Some(s2);
    assert Run(s1, [Deliver(t + 200, Touch(ActionUp))]) == Some(s2);
  }

  /** A press held until its long press fires, from a state with nothing
      pending: the long press shows the controls only while playing or
      expanded, and leaves no long press pending either way. */
  lemma HoldUntilLongPress(s: State, t: nat)
    requires Inv(s) && s.viewAttached && CanHandle(s, t)
    requires !s.isControlsVisible && s.longPressQueue == [] && s.collapseAt.None?
    ensures Enabled(s, Deliver(t, Touch(ActionDown)))
    ensures Enabled(Next(s, Deliver(t, Touch(ActionDown))), LongPressDue)
    ensures var s2 := Next(Next(s, Deliver(t, Touch(ActionDown))), LongPressDue);
            && Inv(s2) && s2.viewAttached && s2.now == t + LONG_PRESS_MS && s2.longPressQueue == []
            && s2.isExpanded == s.isExpanded && s2.isMusicPlaying == s.isMusicPlaying
            && s2.collapseAt.None?
            && ((s.isMusicPlaying || s.isExpanded) ==>
                  s2.isControlsVisible && s2.wasLongPress && s2.hideQueue == [t + LONG_PRESS_MS + HIDE_CONTROLS_MS])
            && (!(s.isMusicPlaying || s.isExpanded) ==>
                  !s2.isControlsVisible && !s2.wasLongPress && s2.hideQueue == [])
  {
    var s1 := Next(s, Deliver(t, Touch(ActionDown)));
    TouchKeepsInv(s, t, ActionDown);
    assert s1.longPressQueue == [Posted(s.nextRunnable, t + LONG_PRESS_MS)];
    assert Enabled(s1, LongPressDue);
    LongPressGated(s1);
    RunLongPressKeepsInv(s1);
  }

  /** Holding 600 ms while music plays: the long press at 500 ms shows the
      controls and arms the hide for 1500 ms later, and the release changes
      nothing. */
  lemma LongPressWhilePlaying(s: State, t: nat)
    requires Inv(s) && s.viewAttached && CanHandle(s, t)
    requires s.isMusicPlaying && !s.isControlsVisible && s.longPressQueue == []
    ensures var r := Run(s, [Deliver(t, Touch(ActionDown)), LongPressDue, Deliver(t + 600, Touch(ActionUp))]);
            && r.Some? && Inv(r.value)
            && r.value.isControlsVisible && r.value.hideQueue == [t + LONG_PRESS_MS + HIDE_CONTROLS_MS]
            && r.value.isExpanded == s.isExpanded
            && r.value.isMusicPlaying && r.value.longPressQueue == []
  {
    HoldUntilLongPress(s, t);
    var s1 := Next(s, Deliver(t, Touch(ActionDown)));
    var s2 := Next(s1, LongPressDue);
    var up := Deliver(t + 600, Touch(ActionUp));
    assert Enabled(s2, up);
    var s3 := Next(s2, up);
    ReleaseRules(s2, t + 600);
    TouchKeepsInv(s2, t + 600, ActionUp);
    assert s3.longPressQueue == [] by {
      assert s3.longPressQueue == Without(s2.longPressQueue, s2.longPressRunnable.value);
    }
    RunThree(s, Deliver(t, Touch(ActionDown)), LongPressDue, up);
  }

  /** Three enabled steps in a row. */
  lemma RunThree(s: State, a: Step, b: Step, c: Step)
    requires Enabled(s, a) && Enabled(Next(s, a), b) && Enabled(Next(Next(s, a), b), c)
    ensures Run(s, [a, b, c]) == Some(Next(Next(Next(s, a), b), c))
  {
    var s3 := Next(Next(Next(s, a), b), c);
    assert Run(s3, []) == Some(s3);
    assert Run(Next(Next(s, a), b), [c]) == Some(s3);
    assert [a, b, c][1..] == [b, c];
  }

  /** Running two step sequences one after the other. */
  lemma {:induction false} RunAppend(s: State, xs: seq<Step>, ys: seq<Step>)
    requires Run(s, xs).Some?
    ensures Run(s, xs + ys) == Run(Run(s, xs).value, ys)
    decreases |xs|
  {
    if xs != [] {
      assert Enabled(s, xs[0]);
      assert xs + ys != [] && (xs + ys)[0] == xs[0];
      assert (xs + ys)[1..] == xs[1..] + ys;
      RunAppend(Next(s, xs[0]), xs[1..], ys);
      assert Run(s, xs + ys) == Run(Next(s, xs[0]), xs[1..] + ys);
    } else {
      assert xs + ys == ys;
    }
  }

  /** ... and 1500 ms after the long press, with nothing in between, the
      controls hide again. */
  lemma ControlsHideAfterLongPress(s: State, t: nat)
    requires Inv(s) && s.viewAttached && CanHandle(s, t)
    requires s.isMusicPlaying && !s.isControlsVisible && s.longPressQueue == []
    ensures var steps := [Deliver(t, Touch(ActionDown)), LongPressDue, Deliver(t + 600, Touch(ActionUp)), HideDue];
            var r := Run(s, steps);
            r.Some? && !r.value.isControlsVisible && r.value.now == t + LONG_PRESS_MS + HIDE_CONTROLS_MS
  {
    var press := [Deliver(t, Touch(ActionDown)), LongPressDue, Deliver(t + 600, Touch(ActionUp))];
    LongPressWhilePlaying(s, t);
    var s3 := Run(s, press).value;
    assert Enabled(s3, HideDue);
    var s4 := Next(s3, HideDue);
    assert Run(s4, []) == Some(s4);
    assert Run(s3, [HideDue]) == Some(s4);
    RunAppend(s, press, [HideDue]);
    assert press + [HideDue] == [Deliver(t, Touch(ActionDown)), LongPressDue, Deliver(t + 600, Touch(ActionUp)), HideDue];
  }

  /** A long press while neither playing nor expanded is swallowed, so the
      release still acts as a tap and expands the overlay. */
  lemma UngatedLongPressActsAsTap(s: State, t: nat)
    requires Inv(s) && s.viewAttached && CanHandle(s, t)
    requires !s.isMusicPlaying && !s.isExpanded && !s.isControlsVisible && s.longPressQueue == []
    requires s.collapseAt.None?
    ensures var r := Run(s, [Deliver(t, Touch(ActionDown)), LongPressDue, Deliver(t + 600, Touch(ActionUp))]);
            r.Some? && r.value.isExpanded && !r.value.isControlsVisible
  {
    HoldUntilLongPress(s, t);
    var s2 := Next(Next(s, Deliver(t, Touch(ActionDown))), LongPressDue);
    var up := Deliver(t + 600, Touch(ActionUp));
    assert Enabled(s2, up);
    ReleaseRules(s2, t + 600);
    RunThree(s, Deliver(t, Touch(ActionDown)), LongPressDue, up);
  }

  /** Playback of the bound controller stops while expanded: 700 ms later,
      with nothing in between, the overlay collapses. */
  lemma StopWhileExpandedCollapses(s: State, t: nat, cb: CallbackId, c: Controller, icons: PackageIcons)
    requires Inv(s) && s.viewAttached && CanHandle(s, t) && Quiet(s, t + COLLAPSE_DELAY_MS)
    requires s.isExpanded && s.isMusicPlaying && !IsActive(c.playback)
    requires Registration(c.id, cb) in s.registrations
    ensures var r := Run(s, [Deliver(t, PlaybackChanged(cb, c, icons)), CollapseDue]);
            r.Some? && !r.value.isExpanded && r.value.now == t + COLLAPSE_DELAY_MS
  {
    var s1 := Next(s, Deliver(t, PlaybackChanged(cb, c, icons)));
    SyncTouchesOnlyMedia(s.(now := t), c, icons);
    assert s1.collapseAt == Some(t + COLLAPSE_DELAY_MS);
    assert Enabled(s1, CollapseDue);
    var s2 := Next(s1, CollapseDue);
    assert Run(s2, []) == Some(s2);
    assert Run(s1, [CollapseDue]) == Some(s2);
  }

  /** Playback stops while expanded and resumes 500 ms later: no collapse
      is pending any more, and the overlay stays expanded. */
  lemma ResumeBeforeCollapseKeepsExpanded(s: State, t: nat, cb: CallbackId, stopped: Controller,
                                         resumed: Controller, icons: PackageIcons)
    requires Inv(s) && s.viewAttached && CanHandle(s, t) && Quiet(s, t + 500)
    requires s.isExpanded && s.isMusicPlaying
    requires !IsActive(stopped.playback) && IsActive(resumed.playback) && resumed.id == stopped.id
    requires Registration(stopped.id, cb) in s.registrations
    ensures var r := Run(s, [Deliver(t, PlaybackChanged(cb, stopped, icons)),
                             Deliver(t + 500, PlaybackChanged(cb, resumed, icons))]);
            r.Some? && r.value.isExpanded && r.value.collapseAt.None? && !Enabled(r.value, CollapseDue)
  {
    var s1 := Next(s, Deliver(t, PlaybackChanged(cb, stopped, icons)));
    SyncTouchesOnlyMedia(s.(now := t), stopped, icons);
    assert s1.collapseAt == Some(t + COLLAPSE_DELAY_MS);
    assert Enabled(s1, Deliver(t + 500, PlaybackChanged(cb, resumed, icons)));
    var s2 := Next(s1, Deliver(t + 500, PlaybackChanged(cb, resumed, icons)));
    SyncTouchesOnlyMedia(s1.(now := t + 500), resumed, icons);
    assert Run(s2, []) == Some(s2);
    assert Run(s1, [Deliver(t + 500, PlaybackChanged(cb, resumed, icons))]) == Some(s2);
  }

  /** Of a paused and a playing session listed together, the playing one is
      bound, whatever the order. */
  lemma PlayingSessionPreferred(a: Controller, b: Controller)
    requires a.playback == Some(Paused) && b.playback == Some(Playing)
    ensures Select([a, b]) == Some(b)
    ensures Select([b, a]) == Some(b)
  {
    assert IsFirstActive([a, b], 1);
    assert IsFirstActive([b, a], 0);
  }

  /** With every session idle, the first listed one is bound. */
  lemma FirstSessionWhenNonePlays(cs: seq<Controller>)
    requires |cs| > 0 && forall i :: 0 <= i < |cs| ==> cs[i].playback == Some(Paused)
    ensures Select(cs) == Some(cs[0])
  {
  }

  /** Playback pausing while the controls show and the overlay is not
      expanded leaves the controls flagged visible over the idle circle
      until their hide fires: the controls do not imply the pill. */
  lemma ControlsCanOutlivePill(s: State, t: nat, cb: CallbackId, c: Controller, icons: PackageIcons)
    requires Inv(s) && CanHandle(s, t) && Registration(c.id, cb) in s.registrations
    requires s.isMusicPlaying && !s.isExpanded && s.isControlsVisible && c.playback == Some(Paused)
    ensures var r := Next(s, Deliver(t, PlaybackChanged(cb, c, icons)));
            r.isControlsVisible && RenderOf(r).content.CircleDot? && |r.hideQueue| == 1
  {
    SyncTouchesOnlyMedia(s.(now := t), c, icons);
  }

  /** `onDestroy` leaves the session-change listener registered: a later
      session change binds a controller and registers a callback again. */
  lemma ListenerOutlivesTeardown(s: State, t: nat, t2: nat, sessions: seq<Controller>, icons: PackageIcons)
    requires Inv(s) && s.sessionsListener && CanHandle(s, t) && t <= t2 && Quiet(s, t2) && sessions != []
    ensures var d := OnDestroy(s, t);
            && d.registrations == multiset{} && !d.viewAttached
            && Enabled(d, Deliver(t2, SessionsChanged(sessions, icons)))
            && Next(d, Deliver(t2, SessionsChanged(sessions, icons))).registrations != multiset{}
  {
    DestroyKeepsInv(s, t);
    ClearMediaResets(s.(now := t));
    var d := OnDestroy(s, t);
    assert Enabled(d, Deliver(t2, SessionsChanged(sessions, icons)));
    var c := Select(sessions).value;
    assert d.(now := t2).activeController.None?;
    BindOtherController(d.(now := t2), c, icons);
  }
}
