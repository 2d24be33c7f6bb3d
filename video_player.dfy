/** The split hooks assembled into one player: the session is created with the
    initial state and a shared `durationRef`, the effects run in declaration order on
    mount, re-run on a URL change and clean up on unmount. Every subsystem writes
    through the same `UpdateState`, and the action record hands out the subsystems'
    own handlers (`handleQualityChange` is `HlsPlayer.SetQuality`, `toggleFullscreen`
    is `Fullscreen.ToggleFullscreen`). */
module VideoPlayer {
  import opened Base
  import opened VideoState
  import opened PlayerSession
  import opened ControlsVisibility
  import opened Fullscreen
  import opened KeyboardShortcuts
  import opened HlsPlayer

  /** First render and mount: the state is the initial record, `durationRef` is 0,
      the streaming effect attaches `url`, the visibility effect runs with the video
      paused (controls shown, no hide pending), and the fullscreen and keyboard
      listeners are registered. */
  method Mount(hasVideo: bool, hasPlayer: bool, progressBar: Option<Rect>, now: int,
               url: string, engineSupported: bool, nativeSupported: bool) returns (s: PlayerSession)
    ensures fresh(s) && s.Valid()
    ensures s.state == Initial && s.durationRef == 0.0 && s.pendingHide == None
    ensures s.hasVideo == hasVideo && s.hasPlayer == hasPlayer && s.progressBar == progressBar && s.clock == now
    ensures s.visibilityDeps == Some((false, false))
    ensures s.fullscreenListener && s.keyListener && s.dragListener == None
    ensures hasVideo && url != "" ==> s.mediaListeners == AllMediaEvents
    ensures !hasVideo || url == "" ==>
      s.mediaListeners == {} && s.engine == None && s.nativeSrc == None && s.metadataListeners == 0
    ensures hasVideo && url != "" && engineSupported ==>
      s.engine == Some(Engine(url, AutoLevel, false)) && s.nativeSrc == None && s.metadataListeners == 0
    ensures hasVideo && url != "" && !engineSupported && nativeSupported ==>
      s.engine == None && s.nativeSrc == Some(url) && s.metadataListeners == 1
    ensures hasVideo && url != "" && !engineSupported && !nativeSupported ==>
      s.engine == None && s.nativeSrc == None && s.metadataListeners == 0
  {
    s := new PlayerSession(hasVideo, hasPlayer, progressBar, now);
    HlsSetup(s, url, engineSupported, nativeSupported);
    FirstVisibilityRun(s);
    SetFullscreenListener(s, true);
    SetKeyListener(s, true);
  }

  /** A new `hlsUrl`: only the streaming effect re-runs. Its cleanup destroys the old
      engine and its body attaches the new URL; the view-model state is not reset. */
  method ChangeUrl(s: PlayerSession, url: string, engineSupported: bool, nativeSupported: bool)
    modifies s`engine, s`nativeSrc, s`metadataListeners, s`mediaListeners
    ensures s.hasVideo && url != "" ==> s.mediaListeners == AllMediaEvents
    ensures !s.hasVideo || url == "" ==> s.mediaListeners == {}
    ensures s.hasVideo && url != "" && engineSupported ==> s.engine == Some(Engine(url, AutoLevel, false))
    ensures !(s.hasVideo && url != "" && engineSupported) ==>
      s.engine == if old(s.engine).Some? then Some(old(s.engine).value.(destroyed := true)) else None
    ensures s.hasVideo && url != "" && engineSupported ==>
      s.nativeSrc == old(s.nativeSrc) && s.metadataListeners == old(s.metadataListeners)
    ensures s.hasVideo && url != "" && !engineSupported && nativeSupported ==>
      s.nativeSrc == Some(url) && s.metadataListeners == old(s.metadataListeners) + 1
    ensures !(s.hasVideo && url != "" && (engineSupported || nativeSupported)) ==>
      s.nativeSrc == old(s.nativeSrc) && s.metadataListeners == old(s.metadataListeners)
  {
    HlsTeardown(s);
    HlsSetup(s, url, engineSupported, nativeSupported);
  }

  /** Unmount: each effect's cleanup runs. The streaming listeners go and the engine is
      destroyed, the controls timer is cancelled, and the window and document
      listeners are removed. A drag in progress keeps its document listeners. */
  method Unmount(s: PlayerSession)
    requires s.Valid()
    modifies s`engine, s`mediaListeners, s`pendingHide, s`visibilityDeps, s`fullscreenListener, s`keyListener
    ensures s.Valid()
    ensures s.mediaListeners == {} && s.pendingHide == None && s.visibilityDeps == None
    ensures !s.fullscreenListener && !s.keyListener
    ensures old(s.engine).Some? ==> s.engine == Some(old(s.engine).value.(destroyed := true))
    ensures old(s.engine).None? ==> s.engine == None
  {
    HlsTeardown(s);
    VisibilityCleanup(s);
    SetFullscreenListener(s, false);
    SetKeyListener(s, false);
  }

  /** `setIsHovered(value)`: only `isHovered` changes. */
  method SetIsHovered(s: PlayerSession, value: bool)
    requires s.Valid()
    modifies s`state
    ensures s.Valid()
    ensures s.state == old(s.state).(isHovered := value)
  {
    s.UpdateState(NoChange.(isHovered := Some(value)));
    assert MenusAtMostOne(s.state);
  }
}
