/** What the player component derives from the state, and its pointer wiring. */
module PlayerView {
  import opened Base
  import opened VideoState
  import opened PlayerSession
  import opened ControlsVisibility
  import opened VideoPlayer

  /** The controls overlay is shown while the controls are shown, the video is
      paused, the pointer is over the player, or a drag is in progress. */
  predicate ControlsOverlayVisible(st: PlayerState) {
    st.showControls || !st.playing || st.isHovered || st.isSeeking
  }

  /** The loading overlay is shown until the media is loaded. */
  predicate LoadingVisible(st: PlayerState) {
    !st.videoLoaded
  }

  /** The thumbnail is shown over loaded media that is paused. */
  predicate ThumbnailVisible(st: PlayerState) {
    !st.playing && st.videoLoaded
  }

  /** The centre play button is shown while paused, while the pointer is over it, or
      while the controls are shown. */
  predicate CenterButtonVisible(st: PlayerState, overButton: bool) {
    !st.playing || overButton || st.showControls
  }

  /** The loading overlay and the thumbnail are never shown together; before loading
      one of the two always is, and a paused player always shows its controls and its
      centre button. */
  lemma OverlayRules(st: PlayerState, overButton: bool)
    ensures !(LoadingVisible(st) && ThumbnailVisible(st))
    ensures !st.playing ==> (LoadingVisible(st) || ThumbnailVisible(st))
    ensures !st.playing ==> ControlsOverlayVisible(st) && CenterButtonVisible(st, overButton)
    ensures !ControlsOverlayVisible(st) <==> st.playing && !st.showControls && !st.isHovered && !st.isSeeking
  {
  }

  /** The first render: the player is loading, its controls and centre button are
      shown, the thumbnail is not. */
  lemma InitialView(overButton: bool)
    ensures LoadingVisible(Initial) && !ThumbnailVisible(Initial)
    ensures ControlsOverlayVisible(Initial) && CenterButtonVisible(Initial, overButton)
  {
  }

  /** The pointer enters the player: hovered, then the delayed hide is rescheduled by
      the render's closure. The overlay is shown afterwards. */
  method MouseEnter(s: PlayerSession)
    requires s.Valid()
    modifies s`state, s`pendingHide
    ensures s.Valid()
    ensures (s.state, s.pendingHide) == AfterDelay(old(s.state).(isHovered := true), old(s.pendingHide), old(s.state), s.clock)
    ensures ControlsOverlayVisible(s.state)
  {
    var seen := s.state;
    SetIsHovered(s, true);
    HideControlsAfterDelay(s, seen);
  }

  /** The pointer leaves the player: not hovered, then the controls are hidden at
      once. The overlay stays only while paused or dragging. */
  method MouseLeave(s: PlayerSession)
    requires s.Valid()
    modifies s`state, s`pendingHide
    ensures s.Valid()
    ensures s.state == old(s.state).(isHovered := false, showControls := false) && s.pendingHide == None
    ensures ControlsOverlayVisible(s.state) <==> !s.state.playing || s.state.isSeeking
  {
    SetIsHovered(s, false);
    HideControlsImmediately(s);
  }

  /** The pointer moves over the player: the delayed hide is rescheduled. */
  method MouseMove(s: PlayerSession)
    requires s.Valid()
    modifies s`state, s`pendingHide
    ensures s.Valid()
    ensures (s.state, s.pendingHide) == AfterDelay(old(s.state), old(s.pendingHide), old(s.state), s.clock)
  {
    HideControlsAfterDelay(s, s.state);
  }
}
