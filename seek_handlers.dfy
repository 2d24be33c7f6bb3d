/** Progress-bar handlers: click to seek, hover preview, and the press-drag-release
    scrub, which registers document listeners on press and removes them on release. */
module SeekHandlers {
  import opened Base
  import opened JsMath
  import opened VideoState
  import opened PlayerSession
  import opened ControlsVisibility

  /** The pointer's position along the bar as a fraction of its width; not clamped. */
  function Fraction(clientX: real, bar: Rect): real {
    (clientX - bar.left) / bar.width
  }

  /** A pointer that lies over the bar gives a fraction between 0 and 1. */
  lemma FractionOverBar(clientX: real, bar: Rect)
    requires bar.left <= clientX <= bar.left + bar.width
    ensures 0.0 <= Fraction(clientX, bar) <= 1.0
  {
    QuotientSign(clientX - bar.left, bar.width);
    QuotientUnit(clientX - bar.left, bar.width);
  }

  /** A fraction in [0, 1] of a non-negative length lies between 0 and that length. */
  lemma ScaledWithin(p: real, d: real)
    requires 0.0 <= p <= 1.0 && d >= 0.0
    ensures 0.0 <= p * d <= d
  {
    TimesMonotone(0.0, p, d);
    TimesMonotone(p, 1.0, d);
  }

  /** The click target: the raw fraction times the duration the render saw. */
  function ClickTime(clientX: real, bar: Rect, duration: real): (t: real)
    ensures bar.left <= clientX <= bar.left + bar.width && duration >= 0.0 ==> 0.0 <= t <= duration
  {
    if bar.left <= clientX <= bar.left + bar.width && duration >= 0.0 then
      FractionOverBar(clientX, bar);
      ScaledWithin(Fraction(clientX, bar), duration);
      Fraction(clientX, bar) * duration
    else
      Fraction(clientX, bar) * duration
  }

  /** The drag fraction, clamped to [0, 1]. */
  function ClampedFraction(clientX: real, bar: Rect): (p: real)
    ensures 0.0 <= p <= 1.0
    ensures bar.left <= clientX <= bar.left + bar.width ==> p == Fraction(clientX, bar)
  {
    if bar.left <= clientX <= bar.left + bar.width then
      FractionOverBar(clientX, bar);
      Min(Max(Fraction(clientX, bar), 0.0), 1.0)
    else
      Min(Max(Fraction(clientX, bar), 0.0), 1.0)
  }

  /** The drag target: the clamped fraction times `durationRef`, so it never leaves
      [0, durationRef], wherever the pointer goes. */
  function DragTime(clientX: real, bar: Rect, durationRef: real): (t: real)
    ensures durationRef >= 0.0 ==> 0.0 <= t <= durationRef
    ensures bar.left <= clientX <= bar.left + bar.width ==> t == ClickTime(clientX, bar, durationRef)
  {
    var p := ClampedFraction(clientX, bar);
    if durationRef >= 0.0 then
      ScaledWithin(p, durationRef);
      p * durationRef
    else
      p * durationRef
  }

  /** Past either end of the bar the drag target sticks to that end. */
  lemma DragTimeEnds(clientX: real, bar: Rect, durationRef: real)
    ensures clientX <= bar.left ==> DragTime(clientX, bar, durationRef) == 0.0
    ensures clientX >= bar.left + bar.width ==> DragTime(clientX, bar, durationRef) == durationRef
  {
    QuotientSign(clientX - bar.left, bar.width);
    QuotientUnit(clientX - bar.left, bar.width);
  }

  /** `handleProgressClick` at `clientX`: ignored while the render was seeking, or
      without the bar or the media element; otherwise the state and the element jump
      to the click target and the delayed hide is rescheduled. */
  method HandleProgressClick(s: PlayerSession, clientX: real)
    requires s.Valid()
    modifies s`state, s`nativeTime, s`pendingHide
    ensures s.Valid()
    ensures old(s.state).isSeeking || s.progressBar.None? || !s.hasVideo ==>
      s.state == old(s.state) && s.nativeTime == old(s.nativeTime) && s.pendingHide == old(s.pendingHide)
    ensures !(old(s.state).isSeeking || s.progressBar.None? || !s.hasVideo) ==>
      var t := ClickTime(clientX, s.progressBar.value, old(s.state).duration);
      s.nativeTime == t
      && (s.state, s.pendingHide) == AfterDelay(old(s.state).(currentTime := t), old(s.pendingHide), old(s.state), s.clock)
  {
    ProgressClickWith(s, clientX, s.state);
  }

  /** The click handler built in render `seen`. */
  method ProgressClickWith(s: PlayerSession, clientX: real, seen: PlayerState)
    requires s.Valid()
    modifies s`state, s`nativeTime, s`pendingHide
    ensures s.Valid()
    ensures seen.isSeeking || s.progressBar.None? || !s.hasVideo ==>
      s.state == old(s.state) && s.nativeTime == old(s.nativeTime) && s.pendingHide == old(s.pendingHide)
    ensures !(seen.isSeeking || s.progressBar.None? || !s.hasVideo) ==>
      var t := ClickTime(clientX, s.progressBar.value, seen.duration);
      s.nativeTime == t
      && (s.state, s.pendingHide) == AfterDelay(old(s.state).(currentTime := t), old(s.pendingHide), seen, s.clock)
  {
    if seen.isSeeking {
      return;
    }
    if s.progressBar.None? || !s.hasVideo {
      return;
    }
    var t := ClickTime(clientX, s.progressBar.value, seen.duration);
    s.UpdateState(NoChange.(currentTime := Some(t)));
    assert MenusAtMostOne(s.state);
    s.nativeTime := t;
    HideControlsAfterDelay(s, seen);
  }

  /** `handleProgressHover` at `clientX`: ignored without the bar or while seeking;
      otherwise the preview shows the hovered time. The position is not touched. */
  method HandleProgressHover(s: PlayerSession, clientX: real)
    requires s.Valid()
    modifies s`state
    ensures s.Valid()
    ensures s.progressBar.None? || old(s.state).isSeeking ==> s.state == old(s.state)
    ensures !(s.progressBar.None? || old(s.state).isSeeking) ==>
      s.state == old(s.state).(seekPreviewTime := ClickTime(clientX, s.progressBar.value, old(s.state).duration),
                               seekPreviewVisible := true)
  {
    var seen := s.state;
    if s.progressBar.None? || seen.isSeeking {
      return;
    }
    var t := ClickTime(clientX, s.progressBar.value, seen.duration);
    s.UpdateState(NoChange.(seekPreviewTime := Some(t), seekPreviewVisible := Some(true)));
    assert MenusAtMostOne(s.state);
  }

  /** `hideSeekPreview`: hides the preview unless a drag is in progress. */
  method HideSeekPreview(s: PlayerSession)
    requires s.Valid()
    modifies s`state
    ensures s.Valid()
    ensures s.state == if old(s.state).isSeeking then old(s.state) else old(s.state).(seekPreviewVisible := false)
  {
    if !s.state.isSeeking {
      s.UpdateState(NoChange.(seekPreviewVisible := Some(false)));
      assert MenusAtMostOne(s.state);
    }
  }

  /** `handleSeekStart`: marks the drag, shows the controls and registers the
      document's `mousemove`/`mouseup` pair; the `mouseup` handler registered is the
      one of the current render. */
  method HandleSeekStart(s: PlayerSession)
    requires s.Valid()
    modifies s`state, s`dragListener
    ensures s.Valid()
    ensures s.state == old(s.state).(isSeeking := true, showControls := true)
    ensures s.dragListener == Some(old(s.state))
  {
    var seen := s.state;
    s.UpdateState(NoChange.(isSeeking := Some(true), showControls := Some(true)));
    assert MenusAtMostOne(s.state);
    s.dragListener := Some(seen);
  }

  /** `handleSeekMove` at `clientX`: without the bar or the element nothing happens;
      otherwise position, preview time and the element's position all become the
      clamped drag target, and the preview is shown. */
  method HandleSeekMove(s: PlayerSession, clientX: real)
    requires s.Valid()
    modifies s`state, s`nativeTime
    ensures s.Valid()
    ensures s.progressBar.None? || !s.hasVideo ==> s.state == old(s.state) && s.nativeTime == old(s.nativeTime)
    ensures !(s.progressBar.None? || !s.hasVideo) ==>
      var t := DragTime(clientX, s.progressBar.value, s.durationRef);
      s.nativeTime == t
      && s.state == old(s.state).(currentTime := t, seekPreviewTime := t, seekPreviewVisible := true)
  {
    if s.progressBar.None? || !s.hasVideo {
      return;
    }
    var t := DragTime(clientX, s.progressBar.value, s.durationRef);
    s.UpdateState(NoChange.(currentTime := Some(t), seekPreviewTime := Some(t), seekPreviewVisible := Some(true)));
    assert MenusAtMostOne(s.state);
    s.nativeTime := t;
  }

  /** `handleSeekEnd` as built in render `seen`: ends the drag, hides the preview,
      removes both document listeners and reschedules the delayed hide. */
  method HandleSeekEnd(s: PlayerSession, seen: PlayerState)
    requires s.Valid()
    modifies s`state, s`dragListener, s`pendingHide
    ensures s.Valid()
    ensures s.dragListener == None
    ensures (s.state, s.pendingHide) ==
      AfterDelay(old(s.state).(isSeeking := false, seekPreviewVisible := false), old(s.pendingHide), seen, s.clock)
  {
    s.UpdateState(NoChange.(isSeeking := Some(false), seekPreviewVisible := Some(false)));
    assert MenusAtMostOne(s.state);
    s.dragListener := None;
    HideControlsAfterDelay(s, seen);
  }

  /** The document delivers a `mousemove`: it reaches the drag handler only while the
      pair is registered. */
  method DocumentMouseMove(s: PlayerSession, clientX: real)
    requires s.Valid()
    modifies s`state, s`nativeTime
    ensures s.Valid()
    ensures s.dragListener.None? ==> s.state == old(s.state) && s.nativeTime == old(s.nativeTime)
    ensures s.dragListener.Some? && s.progressBar.Some? && s.hasVideo ==>
      var t := DragTime(clientX, s.progressBar.value, s.durationRef);
      s.nativeTime == t
      && s.state == old(s.state).(currentTime := t, seekPreviewTime := t, seekPreviewVisible := true)
  {
    if s.dragListener.Some? {
      HandleSeekMove(s, clientX);
    }
  }

  /** The document delivers a `mouseup`: it reaches the registered handler, which
      runs with the render state it closed over. */
  method DocumentMouseUp(s: PlayerSession)
    requires s.Valid()
    modifies s`state, s`dragListener, s`pendingHide
    ensures s.Valid()
    ensures s.dragListener == None
    ensures old(s.dragListener).None? ==> s.state == old(s.state) && s.pendingHide == old(s.pendingHide)
    ensures old(s.dragListener).Some? ==>
      s.state == old(s.state).(isSeeking := false, seekPreviewVisible := false, showControls := s.state.showControls)
    ensures old(s.dragListener).Some? ==>
      (s.state, s.pendingHide) == AfterDelay(old(s.state).(isSeeking := false, seekPreviewVisible := false), old(s.pendingHide), old(s.dragListener).value, s.clock)
  {
    if s.dragListener.Some? {
      HandleSeekEnd(s, s.dragListener.value);
    }
  }
}
