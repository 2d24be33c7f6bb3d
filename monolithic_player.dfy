/** The single-hook variant of the player, as written. It keeps one state bag and
    updates it with `setState(prev => ...)`, which merges like `UpdateState`. Its
    memoized callbacks differ from the split hooks in which render they close over:
    - `togglePlay` is rebuilt only when `playing` changes, `toggleMute` only when
      `isMuted` does, `handleProgressClick` only when `duration` or `isSeeking` does;
      the `hideControlsAfterDelay` each of them calls is the one of that render
      (kept in `closures`);
    - `toggleFullscreen`, `handleQualityChange` and `handlePlaybackRateChange` are
      never rebuilt and call the first render's `hideControlsAfterDelay`;
    - an effect keyed on `handleSeekEnd` removes the drag listeners whenever that
      callback is rebuilt, that is whenever `playing` or `isSeeking` changes.
    The handlers that read only the latest state or refs are the split hooks' own. */
module MonolithicPlayer {
  import opened Base
  import opened JsMath
  import opened VideoState
  import opened PlayerSession
  import opened ControlsVisibility
  import opened PlayerControls
  import opened SeekHandlers
  import opened Fullscreen
  import opened KeyboardShortcuts
  import opened HlsPlayer

  /** The render state the never-rebuilt callbacks closed over. */
  const FirstRender: PlayerState := Initial

  /** First render and mount. The effects run in declaration order: keyboard
      listener, streaming and canvas setup, the playing effect, the fullscreen
      listener; every callback closes over the first render. */
  method Mount(hasVideo: bool, hasCanvas: bool, hasPlayer: bool, progressBar: Option<Rect>, now: int,
               url: string, engineSupported: bool, nativeSupported: bool) returns (s: PlayerSession)
    ensures fresh(s) && s.Valid()
    ensures s.state == Initial && s.durationRef == 0.0 && s.pendingHide == None
    ensures s.hasVideo == hasVideo && s.hasPlayer == hasPlayer && s.progressBar == progressBar && s.clock == now
    ensures s.visibilityDeps == Some((false, false)) && s.closures == Closures(Initial, Initial, Initial)
    ensures s.fullscreenListener && s.keyListener && s.dragListener == None
    ensures hasVideo && hasCanvas && url != "" ==> s.mediaListeners == AllMediaEvents && s.frameLoop && s.resizeListener
    ensures !(hasVideo && hasCanvas && url != "") ==>
      s.mediaListeners == {} && s.engine == None && s.nativeSrc == None && s.metadataListeners == 0
      && !s.frameLoop && !s.resizeListener
    ensures hasVideo && hasCanvas && url != "" && engineSupported ==>
      s.engine == Some(Engine(url, AutoLevel, false)) && s.nativeSrc == None && s.metadataListeners == 0
    ensures hasVideo && hasCanvas && url != "" && !engineSupported && nativeSupported ==>
      s.engine == None && s.nativeSrc == Some(url) && s.metadataListeners == 1
    ensures hasVideo && hasCanvas && url != "" && !engineSupported && !nativeSupported ==>
      s.engine == None && s.nativeSrc == None && s.metadataListeners == 0
  {
    s := new PlayerSession(hasVideo, hasPlayer, progressBar, now);
    SetKeyListener(s, true);
    Setup(s, url, hasCanvas, engineSupported, nativeSupported);
    FirstVisibilityRun(s);
    SetFullscreenListener(s, true);
  }

  /** The setup effect: besides the media element and a URL it needs the canvas and
      its 2D context (`hasCanvas`). It attaches the source exactly as the split
      adapter does, sizes the canvas, listens for window resizes and starts the
      frame loop. */
  method Setup(s: PlayerSession, url: string, hasCanvas: bool, engineSupported: bool, nativeSupported: bool)
    modifies s`engine, s`nativeSrc, s`metadataListeners, s`mediaListeners, s`frameLoop, s`resizeListener
    ensures !(s.hasVideo && hasCanvas && url != "") ==>
      s.engine == old(s.engine) && s.nativeSrc == old(s.nativeSrc) && s.metadataListeners == old(s.metadataListeners)
      && s.mediaListeners == old(s.mediaListeners) && s.frameLoop == old(s.frameLoop) && s.resizeListener == old(s.resizeListener)
    ensures s.hasVideo && hasCanvas && url != "" ==>
      s.mediaListeners == AllMediaEvents && s.frameLoop && s.resizeListener
      && (engineSupported ==> s.engine == Some(Engine(url, AutoLevel, false)) && s.nativeSrc == old(s.nativeSrc)
                              && s.metadataListeners == old(s.metadataListeners))
      && (!engineSupported && nativeSupported ==> s.engine == old(s.engine) && s.nativeSrc == Some(url)
                                                  && s.metadataListeners == old(s.metadataListeners) + 1)
      && (!engineSupported && !nativeSupported ==> s.engine == old(s.engine) && s.nativeSrc == old(s.nativeSrc)
                                                   && s.metadataListeners == old(s.metadataListeners))
  {
    if !s.hasVideo || !hasCanvas || url == "" {
      return;
    }
    HlsSetup(s, url, engineSupported, nativeSupported);
    s.resizeListener := true;
    s.frameLoop := true;
  }

  /** The setup effect's cleanup: the frame loop stops, the resize and the five
      media listeners go, and the engine in the ref is destroyed. */
  method Teardown(s: PlayerSession)
    modifies s`engine, s`mediaListeners, s`frameLoop, s`resizeListener
    ensures !s.frameLoop && !s.resizeListener && s.mediaListeners == {}
    ensures old(s.engine).Some? ==> s.engine == Some(old(s.engine).value.(destroyed := true))
    ensures old(s.engine).None? ==> s.engine == None
  {
    s.frameLoop := false;
    s.resizeListener := false;
    HlsTeardown(s);
  }

  /** The render state after which `deps` is captured again: a callback is rebuilt
      exactly when its dependencies differ from those it was created with. */
  function Rebuilt(captured: PlayerState, current: PlayerState, changed: bool): PlayerState {
    if changed then current else captured
  }

  /** A commit after a render. When `playing` or `isSeeking` changed, the rebuilt
      `handleSeekEnd` makes the drag-cleanup effect remove the document listeners
      that are registered, and the playing effect re-runs as in the split hooks; the
      callbacks whose dependencies changed are rebuilt. */
  method Commit(s: PlayerSession)
    requires s.Valid()
    modifies s`state, s`pendingHide, s`visibilityDeps, s`dragListener, s`closures
    ensures s.Valid()
    ensures var deps := Some((old(s.state).playing, old(s.state).isSeeking));
      s.dragListener == (if old(s.visibilityDeps).Some? && old(s.visibilityDeps) != deps then None else old(s.dragListener))
    ensures s.visibilityDeps == Some((old(s.state).playing, old(s.state).isSeeking))
    ensures s.state == old(s.state).(showControls := s.state.showControls)
    ensures old(s.visibilityDeps) == s.visibilityDeps ==> s.state == old(s.state) && s.pendingHide == old(s.pendingHide)
    ensures old(s.visibilityDeps) != s.visibilityDeps && !old(s.state).playing ==>
      s.state == old(s.state).(showControls := true) && s.pendingHide == None
    ensures old(s.visibilityDeps) != s.visibilityDeps && old(s.state).playing && old(s.state).isSeeking ==>
      s.state == old(s.state) && s.pendingHide == (if old(s.visibilityDeps).Some? then None else old(s.pendingHide))
    ensures old(s.visibilityDeps) != s.visibilityDeps && old(s.state).playing && !old(s.state).isSeeking ==>
      s.state == old(s.state).(showControls := true) && s.pendingHide == Some(PendingHide(true, s.clock + HideDelay))
    ensures s.closures == RebuildAll(old(s.closures), old(s.state))
  {
    RebuildClosures(s);
    DragCleanup(s);
    VisibilityEffect(s);
  }

  /** The closures of the render over `st`: each memoized callback is rebuilt over
      `st` when one of its dependencies changed, and kept otherwise. */
  function RebuildAll(c: Closures, st: PlayerState): Closures {
    Closures(
      Rebuilt(c.togglePlay, st, c.togglePlay.playing != st.playing),
      Rebuilt(c.toggleMute, st, c.toggleMute.isMuted != st.isMuted),
      Rebuilt(c.progressClick, st, (c.progressClick.duration, c.progressClick.isSeeking) != (st.duration, st.isSeeking)))
  }

  /** The effect keyed on `handleSeekEnd`: the callback was rebuilt when `playing` or
      `isSeeking` differ from the last commit's, and its cleanup then removes the
      drag listeners. */
  method DragCleanup(s: PlayerSession)
    modifies s`dragListener
    ensures var deps := Some((s.state.playing, s.state.isSeeking));
      s.dragListener == (if s.visibilityDeps.Some? && s.visibilityDeps != deps then None else old(s.dragListener))
  {
    if s.visibilityDeps.Some? && s.visibilityDeps != Some((s.state.playing, s.state.isSeeking)) {
      s.dragListener := None;
    }
  }

  /** The callbacks of the new render: each is rebuilt over the committed state when
      one of its dependencies changed, and kept otherwise. */
  method RebuildClosures(s: PlayerSession)
    modifies s`closures
    ensures s.closures == RebuildAll(old(s.closures), s.state)
  {
    s.closures := RebuildAll(s.closures, s.state);
  }

  /** `togglePlay`: the request and the delayed hide follow the render in which
      `playing` last changed. */
  method TogglePlay(s: PlayerSession)
    requires s.Valid()
    modifies s`playRequests, s`state, s`pendingHide
    ensures s.Valid()
    ensures !s.hasVideo ==> s.playRequests == old(s.playRequests) && s.state == old(s.state) && s.pendingHide == old(s.pendingHide)
    ensures s.hasVideo ==> s.playRequests == old(s.playRequests) + [if s.closures.togglePlay.playing then PauseCall else PlayCall]
    ensures s.hasVideo ==> (s.state, s.pendingHide) == AfterDelay(old(s.state), old(s.pendingHide), s.closures.togglePlay, s.clock)
  {
    TogglePlayWith(s, s.closures.togglePlay);
  }

  /** `toggleMute`: flips the mute flag of the render in which it last changed, and
      reschedules the hide as that render's closure. */
  method ToggleMute(s: PlayerSession)
    requires s.Valid()
    modifies s`state, s`nativeMuted, s`pendingHide
    ensures s.Valid()
    ensures (s.state, s.pendingHide) ==
      AfterDelay(Merge(old(s.state), MuteUpdate(!s.closures.toggleMute.isMuted)), old(s.pendingHide), s.closures.toggleMute, s.clock)
    ensures s.nativeMuted == if s.hasVideo then !s.closures.toggleMute.isMuted else old(s.nativeMuted)
  {
    SetMutedWith(s, !s.closures.toggleMute.isMuted, s.closures.toggleMute);
  }

  /** `handleProgressClick`: the click handler of the render in which `duration` or
      `isSeeking` last changed. */
  method HandleProgressClick(s: PlayerSession, clientX: real)
    requires s.Valid()
    modifies s`state, s`nativeTime, s`pendingHide
    ensures s.Valid()
    ensures var seen := s.closures.progressClick;
      seen.isSeeking || s.progressBar.None? || !s.hasVideo ==>
      s.state == old(s.state) && s.nativeTime == old(s.nativeTime) && s.pendingHide == old(s.pendingHide)
    ensures var seen := s.closures.progressClick;
      !(seen.isSeeking || s.progressBar.None? || !s.hasVideo) ==>
      var t := ClickTime(clientX, s.progressBar.value, seen.duration);
      s.nativeTime == t
      && (s.state, s.pendingHide) == AfterDelay(old(s.state).(currentTime := t), old(s.pendingHide), seen, s.clock)
  {
    ProgressClickWith(s, clientX, s.closures.progressClick);
  }

  /** `toggleFullscreen`, with the first render's delayed hide. */
  method ToggleFullscreen(s: PlayerSession)
    requires s.Valid()
    modifies s`state, s`fullscreenRequests, s`pendingHide
    ensures s.Valid()
    ensures !s.hasPlayer ==>
      s.state == old(s.state) && s.fullscreenRequests == old(s.fullscreenRequests) && s.pendingHide == old(s.pendingHide)
    ensures s.hasPlayer ==>
      s.fullscreenRequests == old(s.fullscreenRequests) + [if s.docFullscreen then ExitCall else EnterCall]
      && (s.state, s.pendingHide) == AfterDelay(old(s.state).(isFullscreen := !s.docFullscreen), old(s.pendingHide), FirstRender, s.clock)
  {
    ToggleFullscreenWith(s, FirstRender);
  }

  /** `handlePlaybackRateChange`, with the first render's delayed hide. */
  method HandlePlaybackRateChange(s: PlayerSession, rate: real)
    requires s.Valid()
    modifies s`state, s`nativeRate, s`pendingHide
    ensures s.Valid()
    ensures (s.state, s.pendingHide) == AfterDelay(Merge(old(s.state), RateUpdate(rate)), old(s.pendingHide), FirstRender, s.clock)
    ensures s.nativeRate == if s.hasVideo then rate else old(s.nativeRate)
  {
    RateChangeWith(s, rate, FirstRender);
  }

  /** `handleQualityChange(levelId)`: with an engine, its level and the selection
      become `levelId`; with or without one, the quality menu and settings close,
      and the first render's delayed hide runs. */
  method HandleQualityChange(s: PlayerSession, levelId: int)
    requires s.Valid()
    modifies s`state, s`engine, s`pendingHide
    ensures s.Valid()
    ensures old(s.engine).None? ==> s.engine == None
    ensures old(s.engine).Some? ==> s.engine == Some(old(s.engine).value.(currentLevel := levelId))
    ensures var picked := if old(s.engine).Some? then old(s.state).(selectedQuality := Some(levelId)) else old(s.state);
      (s.state, s.pendingHide) ==
      AfterDelay(picked.(showQualityMenu := false, showSettings := false), old(s.pendingHide), FirstRender, s.clock)
  {
    if s.engine.Some? {
      s.engine := Some(s.engine.value.(currentLevel := levelId));
      SelectQuality(s, levelId);
    }
    CloseQualityMenus(s);
    HideControlsAfterDelay(s, FirstRender);
  }

  /** `setState(prev => ({ ...prev, selectedQuality: levelId }))`. */
  method SelectQuality(s: PlayerSession, levelId: int)
    requires s.Valid()
    modifies s`state
    ensures s.Valid()
    ensures s.state == old(s.state).(selectedQuality := Some(levelId))
  {
    s.UpdateState(NoChange.(selectedQuality := Some(Some(levelId))));
    assert MenusAtMostOne(s.state);
  }

  /** `setState(prev => ({ ...prev, showQualityMenu: false, showSettings: false }))`. */
  method CloseQualityMenus(s: PlayerSession)
    requires s.Valid()
    modifies s`state
    ensures s.Valid()
    ensures s.state == old(s.state).(showQualityMenu := false, showSettings := false)
  {
    s.UpdateState(NoChange.(showQualityMenu := Some(false), showSettings := Some(false)));
    assert MenusAtMostOne(s.state);
  }

  /** This variant's key table: as the split one, except that `f` toggles fullscreen. */
  function Route(key: string): (a: KeyAction)
    ensures a != Unhandled <==> KeyboardShortcuts.Route(key) != Unhandled
  {
    if key == "f" then FullscreenKey else KeyboardShortcuts.Route(key)
  }

  /** The two key tables agree on every key but `f`. */
  lemma RoutesDifferOnlyAtF(key: string)
    ensures key != "f" ==> Route(key) == KeyboardShortcuts.Route(key)
    ensures Route("f") == FullscreenKey && KeyboardShortcuts.Route("f") == PlayPauseKey
  {
  }

  /** ArrowLeft/ArrowRight here: the state's position and the element's both move to
      the clamped target, computed from the latest state. */
  method SeekByKey(s: PlayerSession, forward: bool)
    requires s.Valid()
    modifies s`state, s`nativeTime
    ensures s.Valid()
    ensures var t := if forward then SeekForwardTarget(old(s.state).currentTime, old(s.state).duration)
                     else SeekBackTarget(old(s.state).currentTime);
      s.nativeTime == t && s.state == old(s.state).(currentTime := t)
  {
    var t := if forward then SeekForwardTarget(s.state.currentTime, s.state.duration) else SeekBackTarget(s.state.currentTime);
    s.UpdateState(NoChange.(currentTime := Some(t)));
    assert MenusAtMostOne(s.state);
    s.nativeTime := t;
  }

  /** ArrowUp/ArrowDown here: the state's volume and the element's both move to the
      clamped target; the mute flag is not touched. */
  method VolumeByKey(s: PlayerSession, up: bool)
    requires s.Valid()
    modifies s`state, s`nativeVolume
    ensures s.Valid()
    ensures var v := if up then VolumeUpTarget(old(s.state).volume) else VolumeDownTarget(old(s.state).volume);
      s.nativeVolume == v as real / 100.0 && s.state == old(s.state).(volume := v)
  {
    var v := if up then VolumeUpTarget(s.state.volume) else VolumeDownTarget(s.state.volume);
    VolumeTargetsWithin(s.state.volume);
    s.UpdateState(NoChange.(volume := Some(v)));
    assert MenusAtMostOne(s.state);
    s.nativeVolume := v as real / 100.0;
  }

  /** An ArrowLeft/ArrowRight press: the seek, then the current render's delayed hide. */
  method SeekKey(s: PlayerSession, forward: bool)
    requires s.Valid()
    modifies s`state, s`nativeTime, s`pendingHide
    ensures s.Valid()
    ensures var t := if forward then SeekForwardTarget(old(s.state).currentTime, old(s.state).duration)
                     else SeekBackTarget(old(s.state).currentTime);
      s.nativeTime == t
      && (s.state, s.pendingHide) == AfterDelay(old(s.state).(currentTime := t), old(s.pendingHide), old(s.state), s.clock)
  {
    var seen := s.state;
    SeekByKey(s, forward);
    HideControlsAfterDelay(s, seen);
  }

  /** An ArrowUp/ArrowDown press: the volume step, then the current render's delayed
      hide. */
  method VolumeKey(s: PlayerSession, up: bool)
    requires s.Valid()
    modifies s`state, s`nativeVolume, s`pendingHide
    ensures s.Valid()
    ensures var v := if up then VolumeUpTarget(old(s.state).volume) else VolumeDownTarget(old(s.state).volume);
      s.nativeVolume == v as real / 100.0
      && (s.state, s.pendingHide) == AfterDelay(old(s.state).(volume := v), old(s.pendingHide), old(s.state), s.clock)
  {
    var seen := s.state;
    VolumeByKey(s, up);
    HideControlsAfterDelay(s, seen);
  }

  /** The volume after `n` ArrowUp presses from `v`. */
  function VolumeAfterUpPresses(v: int, n: nat): int
    decreases n
  {
    if n == 0 then v else VolumeAfterUpPresses(VolumeUpTarget(v), n - 1)
  }

  /** Here the presses accumulate: `n` presses raise the volume by five points each,
      up to 100. */
  lemma {:induction false} UpPressesAccumulate(v: int, n: nat)
    decreases n
    requires 0 <= v <= 100
    ensures VolumeAfterUpPresses(v, n) == MinInt(v + VolumeStep * n, 100)
  {
    if n > 0 {
      UpPressesAccumulate(VolumeUpTarget(v), n - 1);
    }
  }

  /** What this variant's handler for `key` does, from the state before it ran.
      Without the element, or for a key it does not handle, nothing changes. Space
      and `k` run `togglePlay` and `m` runs `toggleMute`, each as the closure of the
      render in which its dependency last changed; `f` runs `toggleFullscreen`, which
      without the player does nothing and otherwise requests the change and
      reschedules the first render's hide; the arrows write state and element and
      reschedule the current render's hide. The fields a branch does not write keep
      their values. */
  twostate predicate KeyDownEffect(s: PlayerSession, key: string)
    reads s
  {
    var st := old(s.state);
    var pending := old(s.pendingHide);
    var plays := old(s.playRequests);
    var muted := old(s.nativeMuted);
    var time := old(s.nativeTime);
    var volume := old(s.nativeVolume);
    var requests := old(s.fullscreenRequests);
    var a := Route(key);
    if !s.hasVideo || a == Unhandled || (a == FullscreenKey && !s.hasPlayer) then
      s.state == st && s.pendingHide == pending && s.playRequests == plays && s.nativeMuted == muted
      && s.nativeTime == time && s.nativeVolume == volume && s.fullscreenRequests == requests
    else if a == PlayPauseKey then
      var seen := s.closures.togglePlay;
      s.playRequests == plays + [if seen.playing then PauseCall else PlayCall]
      && (s.state, s.pendingHide) == AfterDelay(st, pending, seen, s.clock)
      && s.nativeMuted == muted && s.nativeTime == time && s.nativeVolume == volume && s.fullscreenRequests == requests
    else if a == MuteKey then
      var seen := s.closures.toggleMute;
      s.nativeMuted == !seen.isMuted
      && (s.state, s.pendingHide) == AfterDelay(Merge(st, MuteUpdate(!seen.isMuted)), pending, seen, s.clock)
      && s.playRequests == plays && s.nativeTime == time && s.nativeVolume == volume && s.fullscreenRequests == requests
    else if a == FullscreenKey then
      s.fullscreenRequests == requests + [if s.docFullscreen then ExitCall else EnterCall]
      && (s.state, s.pendingHide) == AfterDelay(st.(isFullscreen := !s.docFullscreen), pending, FirstRender, s.clock)
      && s.playRequests == plays && s.nativeMuted == muted && s.nativeTime == time && s.nativeVolume == volume
    else if a in {SeekBackKey, SeekForwardKey} then
      var t := if a == SeekForwardKey then SeekForwardTarget(st.currentTime, st.duration) else SeekBackTarget(st.currentTime);
      s.nativeTime == t
      && (s.state, s.pendingHide) == AfterDelay(st.(currentTime := t), pending, st, s.clock)
      && s.playRequests == plays && s.nativeMuted == muted && s.nativeVolume == volume && s.fullscreenRequests == requests
    else
      var v := if a == VolumeUpKey then VolumeUpTarget(st.volume) else VolumeDownTarget(st.volume);
      s.nativeVolume == v as real / 100.0
      && (s.state, s.pendingHide) == AfterDelay(st.(volume := v), pending, st, s.clock)
      && s.playRequests == plays && s.nativeMuted == muted && s.nativeTime == time && s.fullscreenRequests == requests
  }

  /** The handler for `key`: it prevents the default for every handled key, as long
      as the element exists, and has the effect above. */
  method HandleKeyDown(s: PlayerSession, key: string) returns (prevented: bool)
    requires s.Valid()
    modifies s`state, s`pendingHide, s`playRequests, s`nativeMuted, s`nativeTime, s`nativeVolume, s`fullscreenRequests
    ensures s.Valid()
    ensures prevented == Prevents(s.hasVideo, key)
    ensures KeyDownEffect(s, key)
  {
    if !s.hasVideo {
      return false;
    }
    var a := Route(key);
    if a == Unhandled {
      return false;
    } else if a == PlayPauseKey || a == MuteKey {
      PlaybackPress(s, key);
    } else if a == FullscreenKey {
      FullscreenPress(s, key);
    } else {
      ArrowPress(s, key);
    }
    return true;
  }

  /** Space, `k` and `m` through this variant's stale callbacks. */
  method PlaybackPress(s: PlayerSession, key: string)
    requires s.Valid() && s.hasVideo && Route(key) in {PlayPauseKey, MuteKey}
    modifies s`state, s`pendingHide, s`playRequests, s`nativeMuted
    ensures s.Valid()
    ensures KeyDownEffect(s, key)
  {
    if Route(key) == PlayPauseKey {
      TogglePlay(s);
    } else {
      ToggleMute(s);
    }
  }

  /** `f`: `toggleFullscreen`, with the first render's hide. */
  method FullscreenPress(s: PlayerSession, key: string)
    requires s.Valid() && s.hasVideo && Route(key) == FullscreenKey
    modifies s`state, s`pendingHide, s`fullscreenRequests
    ensures s.Valid()
    ensures KeyDownEffect(s, key)
  {
    ToggleFullscreen(s);
  }

  /** The four arrows, on state and element, with the current render's hide. */
  method ArrowPress(s: PlayerSession, key: string)
    requires s.Valid() && s.hasVideo && Route(key) in {SeekBackKey, SeekForwardKey, VolumeUpKey, VolumeDownKey}
    modifies s`state, s`pendingHide, s`nativeTime, s`nativeVolume
    ensures s.Valid()
    ensures KeyDownEffect(s, key)
  {
    var a := Route(key);
    if a == SeekBackKey || a == SeekForwardKey {
      SeekKey(s, a == SeekForwardKey);
    } else {
      VolumeKey(s, a == VolumeUpKey);
    }
  }
}
