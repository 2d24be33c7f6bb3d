/** Playback commands: play/pause, volume, mute, rate, and the three menus. Each
    handler reads the state of the render it was created in, which is the state at
    the moment the event arrives. */
module PlayerControls {
  import opened Base
  import opened VideoState
  import opened PlayerSession
  import opened ControlsVisibility

  /** `toggleSettings`' update: flips the settings panel, closes the two sub-menus. */
  function ToggleSettingsUpdate(seen: PlayerState): (u: StateUpdate)
    ensures MenuSafe(u)
    ensures forall st :: Merge(st, u).showSettings == !seen.showSettings
    ensures forall st :: !Merge(st, u).showQualityMenu && !Merge(st, u).showPlaybackMenu
  {
    NoChange.(showSettings := Some(!seen.showSettings), showQualityMenu := Some(false), showPlaybackMenu := Some(false))
  }

  /** `openPlaybackMenu`'s update: the rate menu is the only menu open afterwards. */
  const OpenPlaybackUpdate := NoChange.(showPlaybackMenu := Some(true), showQualityMenu := Some(false), showSettings := Some(false))

  /** `openQualityMenu`'s update: the quality menu is the only menu open afterwards. */
  const OpenQualityUpdate := NoChange.(showQualityMenu := Some(true), showPlaybackMenu := Some(false), showSettings := Some(false))

  /** `handlePlaybackRateChange(rate)`'s update: the rate, with the rate menu and the
      settings panel closed; the quality menu is not mentioned. */
  function RateUpdate(rate: real): (u: StateUpdate)
    ensures MenuSafe(u) && u.showQualityMenu == None
    ensures forall st :: Merge(st, u).playbackRate == rate && !Merge(st, u).showPlaybackMenu && !Merge(st, u).showSettings
  {
    NoChange.(playbackRate := Some(rate), showPlaybackMenu := Some(false), showSettings := Some(false))
  }

  /** `handleVolumeChange`'s update: the volume, and muted exactly when it is zero. */
  function VolumeUpdate(v: int): (u: StateUpdate)
    ensures MenuSafe(u)
  {
    NoChange.(volume := Some(v), isMuted := Some(v == 0))
  }

  /** Merging the volume update sets the volume and the mute flag and nothing else. */
  lemma VolumeMerge(st: PlayerState, v: int)
    ensures Merge(st, VolumeUpdate(v)) == st.(volume := v, isMuted := v == 0)
  {
  }

  /** `toggleMute`'s update. */
  function MuteUpdate(muted: bool): (u: StateUpdate)
    ensures MenuSafe(u)
    ensures forall st :: Merge(st, u).isMuted == muted && Merge(st, u).volume == st.volume
  {
    NoChange.(isMuted := Some(muted))
  }

  /** Opening either sub-menu leaves exactly that menu open. */
  lemma OpenMenusExclusive(st: PlayerState)
    ensures MenuSafe(OpenPlaybackUpdate) && MenuSafe(OpenQualityUpdate)
    ensures var p := Merge(st, OpenPlaybackUpdate); p.showPlaybackMenu && !p.showQualityMenu && !p.showSettings
    ensures var q := Merge(st, OpenQualityUpdate); q.showQualityMenu && !q.showPlaybackMenu && !q.showSettings
  {
  }

  /** Toggling the settings panel twice restores it, with both sub-menus closed. */
  lemma ToggleSettingsTwice(st: PlayerState)
    ensures var once := Merge(st, ToggleSettingsUpdate(st));
      var twice := Merge(once, ToggleSettingsUpdate(once));
      twice == st.(showQualityMenu := false, showPlaybackMenu := false)
  {
  }

  /** `togglePlay`: without a media element nothing happens. Otherwise `pause()` is
      requested when the render saw the video playing and `play()` when not, and the
      delayed hide is rescheduled. `playing` itself is not written; only the
      element's `play`/`pause` events change it. */
  method TogglePlay(s: PlayerSession)
    requires s.Valid()
    modifies s`playRequests, s`state, s`pendingHide
    ensures s.Valid()
    ensures !s.hasVideo ==> s.playRequests == old(s.playRequests) && s.state == old(s.state) && s.pendingHide == old(s.pendingHide)
    ensures s.hasVideo ==> s.playRequests == old(s.playRequests) + [if old(s.state).playing then PauseCall else PlayCall]
    ensures s.hasVideo ==> (s.state, s.pendingHide) == AfterDelay(old(s.state), old(s.pendingHide), old(s.state), s.clock)
  {
    TogglePlayWith(s, s.state);
  }

  /** `togglePlay` as the closure of render `seen`: the request follows what that
      render saw, and so does the delayed hide it reschedules. */
  method TogglePlayWith(s: PlayerSession, seen: PlayerState)
    requires s.Valid()
    modifies s`playRequests, s`state, s`pendingHide
    ensures s.Valid()
    ensures !s.hasVideo ==> s.playRequests == old(s.playRequests) && s.state == old(s.state) && s.pendingHide == old(s.pendingHide)
    ensures s.hasVideo ==> s.playRequests == old(s.playRequests) + [if seen.playing then PauseCall else PlayCall]
    ensures s.hasVideo ==> (s.state, s.pendingHide) == AfterDelay(old(s.state), old(s.pendingHide), seen, s.clock)
  {
    if !s.hasVideo {
      return;
    }
    s.playRequests := s.playRequests + [if seen.playing then PauseCall else PlayCall];
    HideControlsAfterDelay(s, seen);
  }

  /** `handleVolumeChange` with the slider's value `v` (an integer in 0..100): the
      volume is stored, a zero volume counts as muted, the element gets `v / 100`.
      The controls timer is not touched. */
  method HandleVolumeChange(s: PlayerSession, v: int)
    requires s.Valid() && 0 <= v <= 100
    modifies s`state, s`nativeVolume
    ensures s.Valid()
    ensures s.state == old(s.state).(volume := v, isMuted := v == 0)
    ensures s.nativeVolume == if s.hasVideo then v as real / 100.0 else old(s.nativeVolume)
  {
    VolumeMerge(s.state, v);
    MenuSafeKeepsAtMostOne(s.state, VolumeUpdate(v));
    VolumeFraction(v);
    s.UpdateState(VolumeUpdate(v));
    if s.hasVideo {
      s.nativeVolume := v as real / 100.0;
    }
  }

  /** A slider value in 0..100 gives an element volume in 0..1. */
  lemma VolumeFraction(v: int)
    requires 0 <= v <= 100
    ensures 0.0 <= v as real / 100.0 <= 1.0
  {
  }

  /** `toggleMute`: flips the mute flag the render saw, mirrors it on the element,
      and reschedules the delayed hide; the volume is left alone. */
  method ToggleMute(s: PlayerSession)
    requires s.Valid()
    modifies s`state, s`nativeMuted, s`pendingHide
    ensures s.Valid()
    ensures (s.state, s.pendingHide) == AfterDelay(Merge(old(s.state), MuteUpdate(!old(s.state).isMuted)), old(s.pendingHide), old(s.state), s.clock)
    ensures s.nativeMuted == if s.hasVideo then !old(s.state).isMuted else old(s.nativeMuted)
  {
    SetMutedWith(s, !s.state.isMuted, s.state);
  }

  /** Stores the mute flag `muted`, mirrors it on the element and reschedules the
      delayed hide as the closure of render `seen`. */
  method SetMutedWith(s: PlayerSession, muted: bool, seen: PlayerState)
    requires s.Valid()
    modifies s`state, s`nativeMuted, s`pendingHide
    ensures s.Valid()
    ensures (s.state, s.pendingHide) == AfterDelay(Merge(old(s.state), MuteUpdate(muted)), old(s.pendingHide), seen, s.clock)
    ensures s.nativeMuted == if s.hasVideo then muted else old(s.nativeMuted)
  {
    MenuSafeKeepsAtMostOne(s.state, MuteUpdate(muted));
    s.UpdateState(MuteUpdate(muted));
    if s.hasVideo {
      s.nativeMuted := muted;
    }
    HideControlsAfterDelay(s, seen);
  }

  /** `handlePlaybackRateChange(rate)` with the delayed hide of the render `seen`. */
  method RateChangeWith(s: PlayerSession, rate: real, seen: PlayerState)
    requires s.Valid()
    modifies s`state, s`nativeRate, s`pendingHide
    ensures s.Valid()
    ensures (s.state, s.pendingHide) == AfterDelay(Merge(old(s.state), RateUpdate(rate)), old(s.pendingHide), seen, s.clock)
    ensures s.nativeRate == if s.hasVideo then rate else old(s.nativeRate)
  {
    MenuSafeKeepsAtMostOne(s.state, RateUpdate(rate));
    s.UpdateState(RateUpdate(rate));
    if s.hasVideo {
      s.nativeRate := rate;
    }
    HideControlsAfterDelay(s, seen);
  }

  /** `handlePlaybackRateChange(rate)`: the rate reaches the state and the element,
      the rate menu and settings close, the quality menu stays as it was, and the
      delayed hide is rescheduled by the current render's closure. */
  method HandlePlaybackRateChange(s: PlayerSession, rate: real)
    requires s.Valid()
    modifies s`state, s`nativeRate, s`pendingHide
    ensures s.Valid()
    ensures (s.state, s.pendingHide) == AfterDelay(Merge(old(s.state), RateUpdate(rate)), old(s.pendingHide), old(s.state), s.clock)
    ensures s.nativeRate == if s.hasVideo then rate else old(s.nativeRate)
  {
    RateChangeWith(s, rate, s.state);
  }

  /** `toggleSettings`. */
  method ToggleSettings(s: PlayerSession)
    requires s.Valid()
    modifies s`state
    ensures s.Valid()
    ensures s.state == Merge(old(s.state), ToggleSettingsUpdate(old(s.state)))
  {
    MenuSafeKeepsAtMostOne(s.state, ToggleSettingsUpdate(s.state));
    s.UpdateState(ToggleSettingsUpdate(s.state));
  }

  /** `openPlaybackMenu`. */
  method OpenPlaybackMenu(s: PlayerSession)
    requires s.Valid()
    modifies s`state
    ensures s.Valid()
    ensures s.state == Merge(old(s.state), OpenPlaybackUpdate)
  {
    MenuSafeKeepsAtMostOne(s.state, OpenPlaybackUpdate);
    s.UpdateState(OpenPlaybackUpdate);
  }

  /** `openQualityMenu`. */
  method OpenQualityMenu(s: PlayerSession)
    requires s.Valid()
    modifies s`state
    ensures s.Valid()
    ensures s.state == Merge(old(s.state), OpenQualityUpdate)
  {
    MenuSafeKeepsAtMostOne(s.state, OpenQualityUpdate);
    s.UpdateState(OpenQualityUpdate);
  }
}
