/** The fullscreen toggle and the document's `fullscreenchange` listener. */
module Fullscreen {
  import opened Base
  import opened VideoState
  import opened PlayerSession
  import opened ControlsVisibility

  /** `toggleFullscreen`. */
  method ToggleFullscreen(s: PlayerSession)
    requires s.Valid()
    modifies s`state, s`fullscreenRequests, s`pendingHide
    ensures s.Valid()
    ensures !s.hasPlayer ==>
      s.state == old(s.state) && s.fullscreenRequests == old(s.fullscreenRequests) && s.pendingHide == old(s.pendingHide)
    ensures s.hasPlayer ==>
      s.fullscreenRequests == old(s.fullscreenRequests) + [if s.docFullscreen then ExitCall else EnterCall]
      && (s.state, s.pendingHide) == AfterDelay(old(s.state).(isFullscreen := !s.docFullscreen), old(s.pendingHide), old(s.state), s.clock)
  {
    ToggleFullscreenWith(s, s.state);
  }

  /** The toggle as the closure of render `seen`: without the player container
      nothing happens. Otherwise a document that is not fullscreen gets a request to
      enter and the state says fullscreen at once, before the browser answers; a
      fullscreen document is asked to leave and the state says not fullscreen. In
      both cases the delayed hide is rescheduled, and no other field changes. */
  method ToggleFullscreenWith(s: PlayerSession, seen: PlayerState)
    requires s.Valid()
    modifies s`state, s`fullscreenRequests, s`pendingHide
    ensures s.Valid()
    ensures !s.hasPlayer ==>
      s.state == old(s.state) && s.fullscreenRequests == old(s.fullscreenRequests) && s.pendingHide == old(s.pendingHide)
    ensures s.hasPlayer ==>
      s.fullscreenRequests == old(s.fullscreenRequests) + [if s.docFullscreen then ExitCall else EnterCall]
      && (s.state, s.pendingHide) == AfterDelay(old(s.state).(isFullscreen := !s.docFullscreen), old(s.pendingHide), seen, s.clock)
  {
    if !s.hasPlayer {
      return;
    }
    RequestFullscreen(s, !s.docFullscreen, seen);
  }

  /** One branch of the toggle: the request to enter (`entering`) or leave, the
      optimistic flag, and the delayed hide of render `seen`. */
  method RequestFullscreen(s: PlayerSession, entering: bool, seen: PlayerState)
    requires s.Valid()
    modifies s`state, s`fullscreenRequests, s`pendingHide
    ensures s.Valid()
    ensures s.fullscreenRequests == old(s.fullscreenRequests) + [if entering then EnterCall else ExitCall]
    ensures (s.state, s.pendingHide) == AfterDelay(old(s.state).(isFullscreen := entering), old(s.pendingHide), seen, s.clock)
  {
    s.fullscreenRequests := s.fullscreenRequests + [if entering then EnterCall else ExitCall];
    SetFullscreenFlag(s, entering);
    HideControlsAfterDelay(s, seen);
  }

  /** `updateState({ isFullscreen: on })`. */
  method SetFullscreenFlag(s: PlayerSession, on: bool)
    requires s.Valid()
    modifies s`state
    ensures s.Valid()
    ensures s.state == old(s.state).(isFullscreen := on)
  {
    s.UpdateState(NoChange.(isFullscreen := Some(on)));
    assert MenusAtMostOne(s.state);
  }

  /** The document fires `fullscreenchange`: while the listener is registered the
      state is overwritten with whether the document is fullscreen, which undoes the
      toggle's optimistic value when the browser refused or the user left. */
  method FullscreenChange(s: PlayerSession)
    requires s.Valid()
    modifies s`state
    ensures s.Valid()
    ensures s.fullscreenListener ==> s.state == old(s.state).(isFullscreen := s.docFullscreen)
    ensures !s.fullscreenListener ==> s.state == old(s.state)
  {
    if s.fullscreenListener {
      SetFullscreenFlag(s, s.docFullscreen);
    }
  }

  /** The listener effect: registered on mount, removed on unmount. */
  method SetFullscreenListener(s: PlayerSession, registered: bool)
    modifies s`fullscreenListener
    ensures s.fullscreenListener == registered
  {
    s.fullscreenListener := registered;
  }
}
