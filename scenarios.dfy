/** Event sequences across several handlers and commits, comparing the split hooks
    with the single-hook variant. A commit (`VisibilityEffect` for the split hooks,
    `MonolithicPlayer.Commit` for the other) runs between events whose updates change
    the effects' dependencies. */
module Scenarios {
  import opened Base
  import opened VideoState
  import opened PlayerSession
  import opened ControlsVisibility
  import opened PlayerControls
  import opened SeekHandlers
  import KeyboardShortcuts
  import MonolithicPlayer

  /** A committed render: the visibility effect has run with the current state. */
  predicate Committed(s: PlayerSession)
    reads s`state, s`visibilityDeps
  {
    s.visibilityDeps == Some((s.state.playing, s.state.isSeeking))
  }

  /** Scrubbing with the split hooks: press, a commit, the pointer moves over the
      document through `xs`, release, a commit. The position and the element end at
      the drag target of the last move, and the drag is over with both document
      listeners gone. */
  method SplitDrag(s: PlayerSession, xs: seq<real>)
    requires s.Valid() && Committed(s) && !s.state.isSeeking
    requires s.hasVideo && s.progressBar.Some? && |xs| > 0
    modifies s`state, s`pendingHide, s`visibilityDeps, s`dragListener, s`nativeTime
    ensures s.Valid() && Committed(s)
    ensures !s.state.isSeeking && !s.state.seekPreviewVisible && s.dragListener == None
    ensures var t := DragTime(xs[|xs| - 1], s.progressBar.value, s.durationRef);
      s.nativeTime == t && s.state.currentTime == t && s.state.seekPreviewTime == t
  {
    SplitPress(s);
    SplitMoves(s, xs);
    SplitRelease(s);
  }

  /** The press and the commit after it: the drag listeners survive the commit. */
  method SplitPress(s: PlayerSession)
    requires s.Valid() && Committed(s) && !s.state.isSeeking
    modifies s`state, s`pendingHide, s`visibilityDeps, s`dragListener
    ensures s.Valid() && Committed(s)
    ensures s.state.isSeeking && s.dragListener.Some?
  {
    HandleSeekStart(s);
    VisibilityEffect(s);
  }

  /** The moves of a drag whose listeners are registered: each one reaches the drag
      handler, and the last one decides the position. */
  method SplitMoves(s: PlayerSession, xs: seq<real>)
    requires s.Valid() && Committed(s) && s.state.isSeeking && s.dragListener.Some?
    requires s.hasVideo && s.progressBar.Some? && |xs| > 0
    modifies s`state, s`nativeTime
    ensures s.Valid() && Committed(s) && s.state.isSeeking
    ensures var t := DragTime(xs[|xs| - 1], s.progressBar.value, s.durationRef);
      s.nativeTime == t && s.state.currentTime == t && s.state.seekPreviewTime == t
  {
    var i := 0;
    while i < |xs|
      invariant 0 <= i <= |xs|
      invariant s.Valid() && Committed(s) && s.state.isSeeking
      invariant i > 0 ==>
        var t := DragTime(xs[i - 1], s.progressBar.value, s.durationRef);
        s.nativeTime == t && s.state.currentTime == t && s.state.seekPreviewTime == t
    {
      DocumentMouseMove(s, xs[i]);
      i := i + 1;
    }
  }

  /** The release and the commit after it: the registered handler ends the drag and
      the position stays where the last move put it. */
  method SplitRelease(s: PlayerSession)
    requires s.Valid() && Committed(s) && s.state.isSeeking && s.dragListener.Some?
    modifies s`state, s`pendingHide, s`visibilityDeps, s`dragListener
    ensures s.Valid() && Committed(s)
    ensures !s.state.isSeeking && !s.state.seekPreviewVisible && s.dragListener == None
    ensures s.state.currentTime == old(s.state.currentTime) && s.state.seekPreviewTime == old(s.state.seekPreviewTime)
  {
    DocumentMouseUp(s);
    VisibilityEffect(s);
  }

  /** Scrubbing with the single-hook variant, as written: the commit after the press
      rebuilds `handleSeekEnd`, whose cleanup effect removes the document listeners
      the press had just registered. The move and the release reach nothing, so the
      position is unchanged and the player stays in the seeking state, in which later
      progress-bar clicks are ignored. */
  method MonolithDrag(s: PlayerSession, x: real, clickX: real)
    requires s.Valid() && Committed(s) && !s.state.isSeeking
    requires s.hasVideo && s.progressBar.Some?
    modifies s`state, s`pendingHide, s`visibilityDeps, s`dragListener, s`nativeTime, s`closures
    ensures s.Valid() && Committed(s)
    ensures s.state.isSeeking && s.dragListener == None
    ensures s.nativeTime == old(s.nativeTime) && s.state.currentTime == old(s.state.currentTime)
  {
    MonolithPress(s);
    DocumentMouseMove(s, x);
    DocumentMouseUp(s);
    MonolithicPlayer.Commit(s);
    MonolithicPlayer.HandleProgressClick(s, clickX);
  }

  /** The press and the commit after it in the single-hook variant: the commit
      removes the listeners the press registered, and rebuilds the click handler
      with a render that is seeking. */
  method MonolithPress(s: PlayerSession)
    requires s.Valid() && Committed(s) && !s.state.isSeeking
    modifies s`state, s`pendingHide, s`visibilityDeps, s`dragListener, s`closures
    ensures s.Valid() && Committed(s)
    ensures s.state.isSeeking && s.dragListener == None && s.closures.progressClick.isSeeking
    ensures s.state.currentTime == old(s.state.currentTime)
  {
    HandleSeekStart(s);
    MonolithicPlayer.Commit(s);
  }

  /** A rate change while playing, with the split hooks: its delayed hide is the
      current render's, so once the delay has passed the controls are hidden. */
  method SplitRateChangeThenWait(s: PlayerSession, rate: real)
    requires s.Valid() && Committed(s) && s.state.playing && !s.state.isSeeking
    modifies s`state, s`nativeRate, s`pendingHide, s`visibilityDeps, s`clock
    ensures s.Valid()
    ensures !s.state.showControls && s.state.playbackRate == rate
  {
    HandlePlaybackRateChange(s, rate);
    VisibilityEffect(s);
    AdvanceClock(s, HideDelay as nat);
  }

  /** The same with the single-hook variant, as written: the rate handler was
      memoized once, so its delayed hide is the first render's, which saw the video
      paused; the timer fires and leaves the controls on screen. */
  method MonolithRateChangeThenWait(s: PlayerSession, rate: real)
    requires s.Valid() && Committed(s) && s.state.playing && !s.state.isSeeking
    modifies s`state, s`nativeRate, s`pendingHide, s`visibilityDeps, s`dragListener, s`closures, s`clock
    ensures s.Valid()
    ensures s.state.showControls && s.state.playbackRate == rate && s.pendingHide == None
  {
    MonolithicPlayer.HandlePlaybackRateChange(s, rate);
    MonolithicPlayer.Commit(s);
    AdvanceClock(s, HideDelay as nat);
  }

  /** Two ArrowUp presses with the split hooks, as written: the handler computes the
      new volume from the state's volume, which it never writes, so the second press
      sets the element to the same volume as the first. */
  method SplitArrowUpTwice(s: PlayerSession) returns (first: real, second: real)
    requires s.Valid() && Committed(s) && s.hasVideo
    modifies s`state, s`pendingHide, s`playRequests, s`nativeMuted, s`nativeTime, s`nativeVolume, s`visibilityDeps
    ensures s.Valid()
    ensures first == second == KeyboardShortcuts.VolumeUpTarget(old(s.state.volume)) as real / 100.0
    ensures s.nativeVolume == second && s.state.volume == old(s.state.volume)
  {
    var _ := KeyboardShortcuts.HandleKeyDown(s, "ArrowUp");
    first := s.nativeVolume;
    VisibilityEffect(s);
    var _ := KeyboardShortcuts.HandleKeyDown(s, "ArrowUp");
    second := s.nativeVolume;
  }

  /** Two ArrowUp presses from the initial volume of 80 reach only 85 with the split
      hooks; with presses that accumulate they reach 90. */
  lemma ArrowUpFromInitial()
    ensures KeyboardShortcuts.VolumeUpTarget(KeyboardShortcuts.VolumeUpTarget(Initial.volume)) == 90
    ensures KeyboardShortcuts.VolumeUpTarget(Initial.volume) == 85
    ensures MonolithicPlayer.VolumeAfterUpPresses(Initial.volume, 2) == 90
  {
  }

  /** One ArrowUp press with the single-hook variant, through its key handler. */
  method MonolithArrowUp(s: PlayerSession)
    requires s.Valid() && s.hasVideo
    modifies s`state, s`pendingHide, s`playRequests, s`nativeMuted, s`nativeTime, s`nativeVolume, s`fullscreenRequests
    ensures s.Valid()
    ensures s.state.volume == KeyboardShortcuts.VolumeUpTarget(old(s.state.volume))
    ensures s.nativeVolume == s.state.volume as real / 100.0
  {
    assert MonolithicPlayer.Route("ArrowUp") == KeyboardShortcuts.VolumeUpKey;
    var _ := MonolithicPlayer.HandleKeyDown(s, "ArrowUp");
  }

  /** Two ArrowUp presses with the single-hook variant: each press updates the state's
      volume from the previous one, so they accumulate. */
  method MonolithArrowUpTwice(s: PlayerSession)
    requires s.Valid() && Committed(s) && s.hasVideo
    modifies s`state, s`pendingHide, s`playRequests, s`nativeMuted, s`nativeTime, s`nativeVolume, s`fullscreenRequests,
             s`visibilityDeps, s`dragListener, s`closures
    ensures s.Valid()
    ensures s.state.volume == MonolithicPlayer.VolumeAfterUpPresses(old(s.state.volume), 2)
    ensures s.nativeVolume == s.state.volume as real / 100.0
  {
    MonolithArrowUp(s);
    MonolithicPlayer.Commit(s);
    MonolithArrowUp(s);
  }
}
