/** One mounted player: the view-model record, the refs the hooks share, and the
    parts of the browser the hooks read and write (the `<video>` element, the
    document's fullscreen element and listeners, the streaming engine instance and
    the single controls timer). */
module PlayerSession {
  import opened Base
  import opened VideoState

  /** The controls timer delay, in milliseconds. */
  const HideDelay: int := 5000

  /** A scheduled `setTimeout` callback of the controls timer: the `playing` value
      its closure captured, and the time it is due. */
  datatype PendingHide = PendingHide(capturedPlaying: bool, dueAt: int)

  /** Calls made on the media element: `play()` and `pause()`. */
  datatype PlayRequest = PlayCall | PauseCall

  /** Calls made on the document: `requestFullscreen()` and `exitFullscreen()`. */
  datatype FullscreenRequest = EnterCall | ExitCall

  /** The media element events the hooks listen to. */
  datatype MediaEvent = TimeUpdate | DurationChange | Play | Pause | LoadedMetadata

  const AllMediaEvents: set<MediaEvent> := {TimeUpdate, DurationChange, Play, Pause, LoadedMetadata}

  type Width = w: real | w > 0.0 witness 1.0

  /** The progress bar's bounding box along the horizontal axis. */
  datatype Rect = Rect(left: real, width: Width)

  /** A streaming engine instance: the source it loaded, its `currentLevel` (-1 is
      automatic selection) and whether `destroy()` was called. */
  datatype Engine = Engine(source: string, currentLevel: int, destroyed: bool)

  /** The render state each memoized callback of the single-hook variant closed over,
      for the callbacks whose dependency lists leave out state they read. */
  datatype Closures = Closures(togglePlay: PlayerState, toggleMute: PlayerState, progressClick: PlayerState)

  class PlayerSession {
    /** The state cell; handlers read the value of the latest render. */
    var state: PlayerState
    /** The shared `durationRef`. */
    var durationRef: real

    /** Whether `videoRef.current` is attached, and the element's own properties. */
    const hasVideo: bool
    var nativeTime: real
    var nativeDuration: real
    var nativeVolume: real
    var nativeMuted: bool
    var nativeRate: real
    var playRequests: seq<PlayRequest>
    var nativeSrc: Option<string>
    /** The five named media listeners currently registered. */
    var mediaListeners: set<MediaEvent>
    /** Anonymous `loadedmetadata` listeners added on the native-playback path. */
    var metadataListeners: nat

    /** Whether `playerRef.current` is attached, and the document around it. */
    const hasPlayer: bool
    var docFullscreen: bool
    var fullscreenRequests: seq<FullscreenRequest>
    var fullscreenListener: bool
    var keyListener: bool
    const progressBar: Option<Rect>
    /** The registered `mousemove`/`mouseup` drag pair, holding the render state the
        registered `mouseup` handler closed over. */
    var dragListener: Option<PlayerState>

    /** `hlsRef.current`. */
    var engine: Option<Engine>

    /** The clock in milliseconds, the single controls timer, and the
        `(playing, isSeeking)` dependencies the visibility effect last ran with. */
    var clock: int
    var pendingHide: Option<PendingHide>
    var visibilityDeps: Option<(bool, bool)>

    /** Only used by the single-hook variant: the animation-frame loop, the canvas
        resize listener and the stale callback closures. */
    var frameLoop: bool
    var resizeListener: bool
    var closures: Closures

    /** The invariant every handler keeps. */
    predicate Valid()
      reads this`state, this`nativeVolume, this`pendingHide, this`clock
    {
      MenusAtMostOne(state)
      && 0 <= state.volume <= 100
      && 0.0 <= nativeVolume <= 1.0
      && (pendingHide.Some? ==> clock < pendingHide.value.dueAt <= clock + HideDelay)
    }

    /** A freshly rendered player before any effect ran: the state is the initial
        record, `durationRef` is 0 and the element has the browser's defaults. */
    constructor (hasVideo: bool, hasPlayer: bool, progressBar: Option<Rect>, now: int)
      ensures Valid()
      ensures state == Initial && durationRef == 0.0
      ensures this.hasVideo == hasVideo && this.hasPlayer == hasPlayer && this.progressBar == progressBar
      ensures nativeTime == 0.0 && nativeDuration == 0.0 && nativeVolume == 1.0
      ensures !nativeMuted && nativeRate == 1.0 && playRequests == [] && nativeSrc == None
      ensures mediaListeners == {} && metadataListeners == 0
      ensures !docFullscreen && fullscreenRequests == [] && !fullscreenListener && !keyListener
      ensures dragListener == None && engine == None
      ensures clock == now && pendingHide == None && visibilityDeps == None
      ensures !frameLoop && !resizeListener
      ensures closures == Closures(Initial, Initial, Initial)
    {
      state := Initial;
      durationRef := 0.0;
      this.hasVideo := hasVideo;
      nativeTime := 0.0;
      nativeDuration := 0.0;
      nativeVolume := 1.0;
      nativeMuted := false;
      nativeRate := 1.0;
      playRequests := [];
      nativeSrc := None;
      mediaListeners := {};
      metadataListeners := 0;
      this.hasPlayer := hasPlayer;
      docFullscreen := false;
      fullscreenRequests := [];
      fullscreenListener := false;
      keyListener := false;
      this.progressBar := progressBar;
      dragListener := None;
      engine := None;
      clock := now;
      pendingHide := None;
      visibilityDeps := None;
      frameLoop := false;
      resizeListener := false;
      closures := Closures(Initial, Initial, Initial);
    }

    /** `updateState(update)`: the state cell becomes `{ ...prev, ...update }`. */
    method UpdateState(u: StateUpdate)
      modifies this`state
      ensures state == Merge(old(state), u)
    {
      state := Merge(state, u);
    }

    /** The browser moves the element's position or learns its length (playback
        progress, metadata arriving); no handler runs. */
    method ElementReports(time: real, duration: real)
      modifies this`nativeTime, this`nativeDuration
      ensures nativeTime == time && nativeDuration == duration
    {
      nativeTime := time;
      nativeDuration := duration;
    }

    /** The document enters or leaves fullscreen on its own (the user pressed Escape,
        or a request was granted or refused); no handler runs. */
    method DocumentFullscreen(on: bool)
      modifies this`docFullscreen
      ensures docFullscreen == on
    {
      docFullscreen := on;
    }
  }
}
