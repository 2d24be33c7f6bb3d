/** The window `keydown` router of the split hooks. */
module KeyboardShortcuts {
  import opened Base
  import opened JsMath
  import opened VideoState
  import opened PlayerSession
  import opened ControlsVisibility
  import opened PlayerControls

  /** What a key asks for. */
  datatype KeyAction = PlayPauseKey | MuteKey | FullscreenKey | SeekBackKey | SeekForwardKey | VolumeUpKey | VolumeDownKey | Unhandled

  /** The split router's table: Space, `k` and `f` toggle play, `m` mutes, the four
      arrows seek and change the volume, every other key is not handled. */
  function Route(key: string): (a: KeyAction)
    ensures a == FullscreenKey ==> false
    ensures a == PlayPauseKey <==> key in {" ", "k", "f"}
    ensures a == Unhandled <==> key !in {" ", "k", "f", "m", "ArrowLeft", "ArrowRight", "ArrowUp", "ArrowDown"}
  {
    if key == " " || key == "k" then PlayPauseKey
    else if key == "f" then PlayPauseKey
    else if key == "m" then MuteKey
    else if key == "ArrowLeft" then SeekBackKey
    else if key == "ArrowRight" then SeekForwardKey
    else if key == "ArrowUp" then VolumeUpKey
    else if key == "ArrowDown" then VolumeDownKey
    else Unhandled
  }

  /** The step of the arrow keys, in seconds and in volume points. */
  const SeekStep: real := 5.0
  const VolumeStep: int := 5

  /** ArrowLeft's target: five seconds back, not before the start. */
  function SeekBackTarget(t: real): (r: real)
    ensures r >= 0.0 && r <= Max(t, 0.0)
    ensures t >= SeekStep ==> r == t - SeekStep
  {
    Max(t - SeekStep, 0.0)
  }

  /** ArrowRight's target: five seconds on, not past the duration. */
  function SeekForwardTarget(t: real, d: real): (r: real)
    ensures r <= d && r <= t + SeekStep
    ensures t + SeekStep <= d ==> r == t + SeekStep
  {
    Min(t + SeekStep, d)
  }

  /** Both arrow targets stay within the media when the position does. */
  lemma ArrowTargetsWithin(t: real, d: real)
    requires 0.0 <= t <= d
    ensures 0.0 <= SeekBackTarget(t) <= d
    ensures 0.0 <= SeekForwardTarget(t, d) <= d
  {
  }

  /** ArrowUp's and ArrowDown's volume, in points. */
  function VolumeUpTarget(v: int): (r: int)
    ensures r <= 100
    ensures v <= 100 ==> v <= r
  {
    MinInt(v + VolumeStep, 100)
  }

  function VolumeDownTarget(v: int): (r: int)
    ensures r >= 0
    ensures v >= 0 ==> r <= v
  {
    MaxInt(v - VolumeStep, 0)
  }

  /** The element receives a volume in [0, 1] for any stored volume in 0..100. */
  lemma VolumeTargetsWithin(v: int)
    requires 0 <= v <= 100
    ensures 0 <= VolumeUpTarget(v) <= 100 && 0 <= VolumeDownTarget(v) <= 100
    ensures 0.0 <= VolumeUpTarget(v) as real / 100.0 <= 1.0
    ensures 0.0 <= VolumeDownTarget(v) as real / 100.0 <= 1.0
  {
  }

  /** Whether the handler calls `preventDefault()`: for every handled key, as long as
      the element exists. */
  function Prevents(hasVideo: bool, key: string): bool {
    hasVideo && Route(key) != Unhandled
  }

  /** What the handler for `key` does to the session, from the state before it ran.
      Without the element, or for a key it does not handle, nothing changes.
      Play/pause records `play()` or `pause()` from the seen `playing`, mute flips
      the element's flag to the negation of the seen `isMuted`, and the arrows write
      only the element's position or volume (never the state's); each handled key
      then reschedules the delayed hide of the current render. The element's other
      properties keep their values. */
  twostate predicate KeyDownEffect(s: PlayerSession, key: string)
    reads s
  {
    var st := old(s.state);
    var pending := old(s.pendingHide);
    var plays := old(s.playRequests);
    var muted := old(s.nativeMuted);
    var time := old(s.nativeTime);
    var volume := old(s.nativeVolume);
    var a := Route(key);
    if !s.hasVideo || a == Unhandled then
      s.state == st && s.pendingHide == pending
      && s.playRequests == plays && s.nativeMuted == muted && s.nativeTime == time && s.nativeVolume == volume
    else if a == PlayPauseKey then
      s.playRequests == plays + [if st.playing then PauseCall else PlayCall]
      && (s.state, s.pendingHide) == AfterDelay(st, pending, st, s.clock)
      && s.nativeMuted == muted && s.nativeTime == time && s.nativeVolume == volume
    else if a == MuteKey then
      s.nativeMuted == !st.isMuted
      && (s.state, s.pendingHide) == AfterDelay(Merge(st, MuteUpdate(!st.isMuted)), pending, st, s.clock)
      && s.playRequests == plays && s.nativeTime == time && s.nativeVolume == volume
    else if a in {SeekBackKey, SeekForwardKey} then
      s.nativeTime == (if a == SeekBackKey then SeekBackTarget(st.currentTime) else SeekForwardTarget(st.currentTime, st.duration))
      && (s.state, s.pendingHide) == AfterDelay(st, pending, st, s.clock)
      && s.playRequests == plays && s.nativeMuted == muted && s.nativeVolume == volume
    else
      s.nativeVolume == (if a == VolumeUpKey then VolumeUpTarget(st.volume) else VolumeDownTarget(st.volume)) as real / 100.0
      && (s.state, s.pendingHide) == AfterDelay(st, pending, st, s.clock)
      && s.playRequests == plays && s.nativeMuted == muted && s.nativeTime == time
  }

  /** The handler for `key`, registered by the effect of the current render: it
      prevents the default for every handled key and has the effect above. */
  method HandleKeyDown(s: PlayerSession, key: string) returns (prevented: bool)
    requires s.Valid()
    modifies s`state, s`pendingHide, s`playRequests, s`nativeMuted, s`nativeTime, s`nativeVolume
    ensures s.Valid()
    ensures prevented == Prevents(s.hasVideo, key)
    ensures KeyDownEffect(s, key)
  {
    if !s.hasVideo {
      return false;
    }
    match Route(key) {
    case PlayPauseKey =>
      TogglePlay(s);
    case MuteKey =>
      ToggleMute(s);
    case FullscreenKey =>
      assert false;
    case SeekBackKey =>
      SeekArrow(s, false);
    case SeekForwardKey =>
      SeekArrow(s, true);
    case VolumeUpKey =>
      VolumeArrow(s, true);
    case VolumeDownKey =>
      VolumeArrow(s, false);
    case Unhandled =>
      return false;
    }
    return true;
  }

  /** An arrow key that seeks: the element's position only, then the delayed hide. */
  method SeekArrow(s: PlayerSession, forward: bool)
    requires s.Valid()
    modifies s`state, s`pendingHide, s`nativeTime
    ensures s.Valid()
    ensures s.nativeTime == if forward then SeekForwardTarget(old(s.state).currentTime, old(s.state).duration)
                            else SeekBackTarget(old(s.state).currentTime)
    ensures (s.state, s.pendingHide) == AfterDelay(old(s.state), old(s.pendingHide), old(s.state), s.clock)
  {
    var seen := s.state;
    s.nativeTime := if forward then SeekForwardTarget(seen.currentTime, seen.duration) else SeekBackTarget(seen.currentTime);
    HideControlsAfterDelay(s, seen);
  }

  /** An arrow key that changes the volume: the element's volume only, then the
      delayed hide. */
  method VolumeArrow(s: PlayerSession, up: bool)
    requires s.Valid()
    modifies s`state, s`pendingHide, s`nativeVolume
    ensures s.Valid()
    ensures s.nativeVolume == (if up then VolumeUpTarget(old(s.state).volume) else VolumeDownTarget(old(s.state).volume)) as real / 100.0
    ensures (s.state, s.pendingHide) == AfterDelay(old(s.state), old(s.pendingHide), old(s.state), s.clock)
  {
    var seen := s.state;
    VolumeTargetsWithin(seen.volume);
    s.nativeVolume := (if up then VolumeUpTarget(seen.volume) else VolumeDownTarget(seen.volume)) as real / 100.0;
    HideControlsAfterDelay(s, seen);
  }

  /** The window delivers a `keydown`: it reaches the handler while one is registered. */
  method WindowKeyDown(s: PlayerSession, key: string) returns (prevented: bool)
    requires s.Valid()
    modifies s`state, s`pendingHide, s`playRequests, s`nativeMuted, s`nativeTime, s`nativeVolume
    ensures s.Valid()
    ensures prevented == (s.keyListener && Prevents(s.hasVideo, key))
    ensures !s.keyListener ==>
      s.state == old(s.state) && s.pendingHide == old(s.pendingHide) && s.playRequests == old(s.playRequests)
      && s.nativeMuted == old(s.nativeMuted) && s.nativeTime == old(s.nativeTime) && s.nativeVolume == old(s.nativeVolume)
    ensures s.keyListener ==> KeyDownEffect(s, key)
  {
    prevented := false;
    if s.keyListener {
      prevented := HandleKeyDown(s, key);
    }
  }

  /** The listener effect: registered on mount, removed on unmount. Re-registering
      after each render only swaps the closure, which always reads the latest state. */
  method SetKeyListener(s: PlayerSession, registered: bool)
    modifies s`keyListener
    ensures s.keyListener == registered
  {
    s.keyListener := registered;
  }
}
