/** The auto-hide controls timer: hiding at once, (re)scheduling a delayed hide,
    the timer firing, and the effect that reacts to `playing` and `isSeeking`. */
module ControlsVisibility {
  import opened Base
  import opened VideoState
  import opened PlayerSession

  /** What `hideControlsAfterDelay`, as the closure of a render whose state was
      `seen`, does to the state and the pending hide at time `now`: nothing while that
      render was seeking; otherwise the controls are shown and the pending hide is
      replaced by one that captured `seen.playing` and is due `HideDelay` later. */
  function AfterDelay(st: PlayerState, pending: Option<PendingHide>, seen: PlayerState, now: int): (r: (PlayerState, Option<PendingHide>))
    ensures seen.isSeeking ==> r == (st, pending)
    ensures !seen.isSeeking ==> r.0 == st.(showControls := true) && r.1 == Some(PendingHide(seen.playing, now + HideDelay))
  {
    if seen.isSeeking then (st, pending)
    else (Merge(st, NoChange.(showControls := Some(true))), Some(PendingHide(seen.playing, now + HideDelay)))
  }

  /** What the timer callback does: the controls are hidden only when the scheduling
      closure captured `playing == true`, and no hide is pending afterwards. */
  function Fired(st: PlayerState, pending: Option<PendingHide>): (r: (PlayerState, Option<PendingHide>))
    ensures r.1 == None
    ensures pending.Some? && pending.value.capturedPlaying ==> r.0 == st.(showControls := false)
    ensures !(pending.Some? && pending.value.capturedPlaying) ==> r.0 == st
  {
    if pending.Some? && pending.value.capturedPlaying then (Merge(st, NoChange.(showControls := Some(false))), None)
    else (st, None)
  }

  /** Rescheduling inside the window replaces the earlier schedule: only the last
      call's closure and deadline remain. */
  lemma LastScheduleWins(st: PlayerState, pending: Option<PendingHide>, seen1: PlayerState, t1: int, seen2: PlayerState, t2: int)
    requires !seen2.isSeeking
    ensures var first := AfterDelay(st, pending, seen1, t1);
      AfterDelay(first.0, first.1, seen2, t2).1 == Some(PendingHide(seen2.playing, t2 + HideDelay))
  {
  }

  /** After a delayed hide is scheduled and fires, the controls are hidden exactly when
      the scheduling render saw the video playing. */
  lemma ScheduledHideOutcome(st: PlayerState, pending: Option<PendingHide>, seen: PlayerState, now: int)
    requires !seen.isSeeking
    ensures var a := AfterDelay(st, pending, seen, now); var b := Fired(a.0, a.1);
      b.0.showControls == !seen.playing && b.1 == None
      && b.0 == st.(showControls := !seen.playing)
  {
  }

  /** `hideControlsImmediately`: any pending hide is cancelled and the controls are
      hidden. */
  method HideControlsImmediately(s: PlayerSession)
    requires s.Valid()
    modifies s`state, s`pendingHide
    ensures s.Valid()
    ensures s.pendingHide == None
    ensures s.state == old(s.state).(showControls := false)
  {
    s.pendingHide := None;
    s.UpdateState(NoChange.(showControls := Some(false)));
  }

  /** `hideControlsAfterDelay` as the closure built in a render whose state was
      `seen`: nothing happens while that render was seeking; otherwise the pending
      hide is replaced by one due `HideDelay` from now that captured `seen.playing`,
      and the controls are shown. */
  method HideControlsAfterDelay(s: PlayerSession, seen: PlayerState)
    requires s.Valid()
    modifies s`state, s`pendingHide
    ensures s.Valid()
    ensures (s.state, s.pendingHide) == AfterDelay(old(s.state), old(s.pendingHide), seen, s.clock)
  {
    if seen.isSeeking {
      return;
    }
    s.UpdateState(NoChange.(showControls := Some(true)));
    s.pendingHide := Some(PendingHide(seen.playing, s.clock + HideDelay));
  }

  /** The timer callback runs: the controls are hidden only if the closure captured
      `playing == true`; nothing else changes. */
  method Fire(s: PlayerSession)
    requires s.Valid()
    modifies s`state, s`pendingHide
    ensures s.Valid()
    ensures (s.state, s.pendingHide) == Fired(old(s.state), old(s.pendingHide))
  {
    if s.pendingHide.Some? && s.pendingHide.value.capturedPlaying {
      s.UpdateState(NoChange.(showControls := Some(false)));
    }
    s.pendingHide := None;
  }

  /** Time passes; the pending hide fires once its due time is reached. */
  method AdvanceClock(s: PlayerSession, ms: nat)
    requires s.Valid()
    modifies s`clock, s`state, s`pendingHide
    ensures s.Valid()
    ensures s.clock == old(s.clock) + ms
    ensures old(s.pendingHide).Some? && old(s.pendingHide).value.dueAt <= s.clock ==>
      (s.state, s.pendingHide) == Fired(old(s.state), old(s.pendingHide))
    ensures !(old(s.pendingHide).Some? && old(s.pendingHide).value.dueAt <= s.clock) ==>
      s.pendingHide == old(s.pendingHide) && s.state == old(s.state)
  {
    if s.pendingHide.Some? && s.pendingHide.value.dueAt <= s.clock + ms {
      Fire(s);
    }
    s.clock := s.clock + ms;
  }

  /** The visibility effect after a render, in the split hooks. Its dependencies are
      `playing` and the identity of `hideControlsAfterDelay`, which changes exactly
      when `playing` or `isSeeking` does. When they changed since the last run, the
      previous run's cleanup cancels the pending hide, then the effect either
      schedules a delayed hide (playing) or shows the controls and cancels the hide. */
  method VisibilityEffect(s: PlayerSession)
    requires s.Valid()
    modifies s`state, s`pendingHide, s`visibilityDeps
    ensures s.Valid()
    ensures s.visibilityDeps == Some((old(s.state).playing, old(s.state).isSeeking))
    ensures s.state == old(s.state).(showControls := s.state.showControls)
    ensures old(s.visibilityDeps) == s.visibilityDeps ==>
      s.state == old(s.state) && s.pendingHide == old(s.pendingHide)
    ensures old(s.visibilityDeps) != s.visibilityDeps && old(s.state).playing && old(s.state).isSeeking ==>
      s.state == old(s.state) && s.pendingHide == (if old(s.visibilityDeps).Some? then None else old(s.pendingHide))
    ensures old(s.visibilityDeps) != s.visibilityDeps && old(s.state).playing && !old(s.state).isSeeking ==>
      s.state == old(s.state).(showControls := true) && s.pendingHide == Some(PendingHide(true, s.clock + HideDelay))
    ensures old(s.visibilityDeps) != s.visibilityDeps && !old(s.state).playing ==>
      s.state == old(s.state).(showControls := true) && s.pendingHide == None
  {
    var deps := (s.state.playing, s.state.isSeeking);
    if s.visibilityDeps == Some(deps) {
      return;
    }
    if s.visibilityDeps.Some? {
      s.pendingHide := None;
    }
    VisibilityBody(s);
    s.visibilityDeps := Some(deps);
  }

  /** The visibility effect's first run, on the first render: the controls stay
      shown and no hide is scheduled. */
  method FirstVisibilityRun(s: PlayerSession)
    requires s.Valid() && s.state == Initial && s.visibilityDeps == None && s.pendingHide == None
    modifies s`state, s`pendingHide, s`visibilityDeps
    ensures s.Valid() && s.state == Initial && s.pendingHide == None
    ensures s.visibilityDeps == Some((false, false))
  {
    InitialShown();
    VisibilityEffect(s);
  }

  /** The body of the visibility effect. */
  method VisibilityBody(s: PlayerSession)
    requires s.Valid()
    modifies s`state, s`pendingHide
    ensures s.Valid()
    ensures old(s.state).playing && old(s.state).isSeeking ==>
      s.state == old(s.state) && s.pendingHide == old(s.pendingHide)
    ensures old(s.state).playing && !old(s.state).isSeeking ==>
      s.state == old(s.state).(showControls := true) && s.pendingHide == Some(PendingHide(true, s.clock + HideDelay))
    ensures !old(s.state).playing ==>
      s.state == old(s.state).(showControls := true) && s.pendingHide == None
  {
    var seen := s.state;
    if seen.playing {
      HideControlsAfterDelay(s, seen);
    } else {
      s.UpdateState(NoChange.(showControls := Some(true)));
      s.pendingHide := None;
    }
  }

  /** Unmounting runs the visibility effect's cleanup. */
  method VisibilityCleanup(s: PlayerSession)
    requires s.Valid()
    modifies s`pendingHide, s`visibilityDeps
    ensures s.Valid()
    ensures s.pendingHide == None && s.visibilityDeps == None
  {
    s.pendingHide := None;
    s.visibilityDeps := None;
  }
}
