/** The player's view-model: one record of eighteen fields, the partial updates
    every subsystem writes through, the merge that applies them, the record a
    session starts from and the `m:ss` clock rendering. */
module VideoState {
  import opened Base
  import opened JsText
  import opened JsMath

  /** One rendition offered by the streaming engine, as the quality menu lists it. */
  datatype QualityLevel = QualityLevel(id: int, labelText: string, resolution: string, height: int)

  /** The view-model record. Times and the rate are exact reals; the volume is the
      integer the volume slider produces. */
  datatype PlayerState = PlayerState(
    playing: bool,
    currentTime: real,
    duration: real,
    volume: int,
    isMuted: bool,
    playbackRate: real,
    showControls: bool,
    isFullscreen: bool,
    showSettings: bool,
    showQualityMenu: bool,
    showPlaybackMenu: bool,
    isHovered: bool,
    seekPreviewTime: real,
    seekPreviewVisible: bool,
    videoLoaded: bool,
    qualities: seq<QualityLevel>,
    selectedQuality: Option<int>,
    isSeeking: bool)

  /** A partial record: `None` is a property the update does not mention. */
  datatype StateUpdate = StateUpdate(
    playing: Option<bool>,
    currentTime: Option<real>,
    duration: Option<real>,
    volume: Option<int>,
    isMuted: Option<bool>,
    playbackRate: Option<real>,
    showControls: Option<bool>,
    isFullscreen: Option<bool>,
    showSettings: Option<bool>,
    showQualityMenu: Option<bool>,
    showPlaybackMenu: Option<bool>,
    isHovered: Option<bool>,
    seekPreviewTime: Option<real>,
    seekPreviewVisible: Option<bool>,
    videoLoaded: Option<bool>,
    qualities: Option<seq<QualityLevel>>,
    selectedQuality: Option<Option<int>>,
    isSeeking: Option<bool>)

  /** The empty update `{}`. */
  const NoChange := StateUpdate(None, None, None, None, None, None, None, None, None,
                                None, None, None, None, None, None, None, None, None)

  /** The record a session starts from. */
  const Initial := PlayerState(
    playing := false, currentTime := 0.0, duration := 0.0, volume := 80, isMuted := false,
    playbackRate := 1.0, showControls := true, isFullscreen := false, showSettings := false,
    showQualityMenu := false, showPlaybackMenu := false, isHovered := false,
    seekPreviewTime := 0.0, seekPreviewVisible := false, videoLoaded := false,
    qualities := [], selectedQuality := None, isSeeking := false)

  /** The first render already shows the controls and is neither playing nor
      seeking. */
  lemma InitialShown()
    ensures Initial.(showControls := true) == Initial
    ensures !Initial.playing && !Initial.isSeeking && MenusAtMostOne(Initial)
  {
  }

  /** Names of the eighteen properties, for statements about "every other field". */
  datatype Field =
    | Playing | CurrentTime | Duration | Volume | IsMuted | PlaybackRate | ShowControls
    | IsFullscreen | ShowSettings | ShowQualityMenu | ShowPlaybackMenu | IsHovered
    | SeekPreviewTime | SeekPreviewVisible | VideoLoaded | Qualities | SelectedQuality | IsSeeking

  /** The value held by one property, whatever its type. */
  datatype FieldValue =
    | BoolValue(b: bool)
    | RealValue(x: real)
    | IntValue(i: int)
    | QualitiesValue(qs: seq<QualityLevel>)
    | SelectionValue(sel: Option<int>)

  function Get(st: PlayerState, f: Field): FieldValue {
    match f
    case Playing => BoolValue(st.playing)
    case CurrentTime => RealValue(st.currentTime)
    case Duration => RealValue(st.duration)
    case Volume => IntValue(st.volume)
    case IsMuted => BoolValue(st.isMuted)
    case PlaybackRate => RealValue(st.playbackRate)
    case ShowControls => BoolValue(st.showControls)
    case IsFullscreen => BoolValue(st.isFullscreen)
    case ShowSettings => BoolValue(st.showSettings)
    case ShowQualityMenu => BoolValue(st.showQualityMenu)
    case ShowPlaybackMenu => BoolValue(st.showPlaybackMenu)
    case IsHovered => BoolValue(st.isHovered)
    case SeekPreviewTime => RealValue(st.seekPreviewTime)
    case SeekPreviewVisible => BoolValue(st.seekPreviewVisible)
    case VideoLoaded => BoolValue(st.videoLoaded)
    case Qualities => QualitiesValue(st.qualities)
    case SelectedQuality => SelectionValue(st.selectedQuality)
    case IsSeeking => BoolValue(st.isSeeking)
  }

  function WrapBool(o: Option<bool>): Option<FieldValue> {
    if o.Some? then Some(BoolValue(o.value)) else None
  }

  function WrapReal(o: Option<real>): Option<FieldValue> {
    if o.Some? then Some(RealValue(o.value)) else None
  }

  function WrapInt(o: Option<int>): Option<FieldValue> {
    if o.Some? then Some(IntValue(o.value)) else None
  }

  function WrapQualities(o: Option<seq<QualityLevel>>): Option<FieldValue> {
    if o.Some? then Some(QualitiesValue(o.value)) else None
  }

  function WrapSelection(o: Option<Option<int>>): Option<FieldValue> {
    if o.Some? then Some(SelectionValue(o.value)) else None
  }

  /** The value an update gives a property, or `None` when it does not mention it. */
  function Given(u: StateUpdate, f: Field): Option<FieldValue> {
    match f
    case Playing => WrapBool(u.playing)
    case CurrentTime => WrapReal(u.currentTime)
    case Duration => WrapReal(u.duration)
    case Volume => WrapInt(u.volume)
    case IsMuted => WrapBool(u.isMuted)
    case PlaybackRate => WrapReal(u.playbackRate)
    case ShowControls => WrapBool(u.showControls)
    case IsFullscreen => WrapBool(u.isFullscreen)
    case ShowSettings => WrapBool(u.showSettings)
    case ShowQualityMenu => WrapBool(u.showQualityMenu)
    case ShowPlaybackMenu => WrapBool(u.showPlaybackMenu)
    case IsHovered => WrapBool(u.isHovered)
    case SeekPreviewTime => WrapReal(u.seekPreviewTime)
    case SeekPreviewVisible => WrapBool(u.seekPreviewVisible)
    case VideoLoaded => WrapBool(u.videoLoaded)
    case Qualities => WrapQualities(u.qualities)
    case SelectedQuality => WrapSelection(u.selectedQuality)
    case IsSeeking => WrapBool(u.isSeeking)
  }

  /** The properties an update mentions. */
  function Mentions(u: StateUpdate): set<Field> {
    set f: Field | Given(u, f).Some?
  }

  /** `{ ...prev, ...update }`: every mentioned property takes the update's value and
      every other property keeps the previous one. */
  function Merge(prev: PlayerState, u: StateUpdate): PlayerState {
    PlayerState(
      u.playing.GetOr(prev.playing),
      u.currentTime.GetOr(prev.currentTime),
      u.duration.GetOr(prev.duration),
      u.volume.GetOr(prev.volume),
      u.isMuted.GetOr(prev.isMuted),
      u.playbackRate.GetOr(prev.playbackRate),
      u.showControls.GetOr(prev.showControls),
      u.isFullscreen.GetOr(prev.isFullscreen),
      u.showSettings.GetOr(prev.showSettings),
      u.showQualityMenu.GetOr(prev.showQualityMenu),
      u.showPlaybackMenu.GetOr(prev.showPlaybackMenu),
      u.isHovered.GetOr(prev.isHovered),
      u.seekPreviewTime.GetOr(prev.seekPreviewTime),
      u.seekPreviewVisible.GetOr(prev.seekPreviewVisible),
      u.videoLoaded.GetOr(prev.videoLoaded),
      u.qualities.GetOr(prev.qualities),
      u.selectedQuality.GetOr(prev.selectedQuality),
      u.isSeeking.GetOr(prev.isSeeking))
  }

  function Later<T>(first: Option<T>, second: Option<T>): Option<T> {
    if second.Some? then second else first
  }

  /** The single update equivalent to applying `first` and then `second`. */
  function Then(first: StateUpdate, second: StateUpdate): StateUpdate {
    StateUpdate(
      Later(first.playing, second.playing),
      Later(first.currentTime, second.currentTime),
      Later(first.duration, second.duration),
      Later(first.volume, second.volume),
      Later(first.isMuted, second.isMuted),
      Later(first.playbackRate, second.playbackRate),
      Later(first.showControls, second.showControls),
      Later(first.isFullscreen, second.isFullscreen),
      Later(first.showSettings, second.showSettings),
      Later(first.showQualityMenu, second.showQualityMenu),
      Later(first.showPlaybackMenu, second.showPlaybackMenu),
      Later(first.isHovered, second.isHovered),
      Later(first.seekPreviewTime, second.seekPreviewTime),
      Later(first.seekPreviewVisible, second.seekPreviewVisible),
      Later(first.videoLoaded, second.videoLoaded),
      Later(first.qualities, second.qualities),
      Later(first.selectedQuality, second.selectedQuality),
      Later(first.isSeeking, second.isSeeking))
  }

  /** Merging sets every property the update mentions to the update's value and
      leaves every other property as it was. */
  lemma MergeField(prev: PlayerState, u: StateUpdate, f: Field)
    ensures Given(u, f).Some? ==> Get(Merge(prev, u), f) == Given(u, f).value
    ensures Given(u, f).None? ==> Get(Merge(prev, u), f) == Get(prev, f)
  {
    MergeGet(prev, u, f);
  }

  lemma MergeGet(prev: PlayerState, u: StateUpdate, f: Field)
    ensures Get(Merge(prev, u), f) == if Given(u, f).Some? then Given(u, f).value else Get(prev, f)
  {
    if f.Playing? || f.CurrentTime? || f.Duration? || f.Volume? || f.IsMuted? || f.PlaybackRate? {
      MergeGetFirst(prev, u, f);
    } else if f.ShowControls? || f.IsFullscreen? || f.ShowSettings? || f.ShowQualityMenu? || f.ShowPlaybackMenu? || f.IsHovered? {
      MergeGetMiddle(prev, u, f);
    } else {
      MergeGetLast(prev, u, f);
    }
  }

  lemma MergeGetFirst(prev: PlayerState, u: StateUpdate, f: Field)
    requires f.Playing? || f.CurrentTime? || f.Duration? || f.Volume? || f.IsMuted? || f.PlaybackRate?
    ensures Get(Merge(prev, u), f) == if Given(u, f).Some? then Given(u, f).value else Get(prev, f)
  {
    var m := Merge(prev, u);
    if f.Playing? {
      assert m.playing == u.playing.GetOr(prev.playing);
    } else if f.CurrentTime? {
      assert m.currentTime == u.currentTime.GetOr(prev.currentTime);
    } else if f.Duration? {
      assert m.duration == u.duration.GetOr(prev.duration);
    } else if f.Volume? {
      assert m.volume == u.volume.GetOr(prev.volume);
    } else if f.IsMuted? {
      assert m.isMuted == u.isMuted.GetOr(prev.isMuted);
    } else {
      assert m.playbackRate == u.playbackRate.GetOr(prev.playbackRate);
    }
  }

  lemma MergeGetMiddle(prev: PlayerState, u: StateUpdate, f: Field)
    requires f.ShowControls? || f.IsFullscreen? || f.ShowSettings? || f.ShowQualityMenu? || f.ShowPlaybackMenu? || f.IsHovered?
    ensures Get(Merge(prev, u), f) == if Given(u, f).Some? then Given(u, f).value else Get(prev, f)
  {
    var m := Merge(prev, u);
    if f.ShowControls? {
      assert m.showControls == u.showControls.GetOr(prev.showControls);
    } else if f.IsFullscreen? {
      assert m.isFullscreen == u.isFullscreen.GetOr(prev.isFullscreen);
    } else if f.ShowSettings? {
      assert m.showSettings == u.showSettings.GetOr(prev.showSettings);
    } else if f.ShowQualityMenu? {
      assert m.showQualityMenu == u.showQualityMenu.GetOr(prev.showQualityMenu);
    } else if f.ShowPlaybackMenu? {
      assert m.showPlaybackMenu == u.showPlaybackMenu.GetOr(prev.showPlaybackMenu);
    } else {
      assert m.isHovered == u.isHovered.GetOr(prev.isHovered);
    }
  }

  lemma MergeGetLast(prev: PlayerState, u: StateUpdate, f: Field)
    requires f.SeekPreviewTime? || f.SeekPreviewVisible? || f.VideoLoaded? || f.Qualities? || f.SelectedQuality? || f.IsSeeking?
    ensures Get(Merge(prev, u), f) == if Given(u, f).Some? then Given(u, f).value else Get(prev, f)
  {
    var m := Merge(prev, u);
    if f.SeekPreviewTime? {
      assert m.seekPreviewTime == u.seekPreviewTime.GetOr(prev.seekPreviewTime);
    } else if f.SeekPreviewVisible? {
      assert m.seekPreviewVisible == u.seekPreviewVisible.GetOr(prev.seekPreviewVisible);
    } else if f.VideoLoaded? {
      assert m.videoLoaded == u.videoLoaded.GetOr(prev.videoLoaded);
    } else if f.Qualities? {
      assert m.qualities == u.qualities.GetOr(prev.qualities);
    } else if f.SelectedQuality? {
      assert m.selectedQuality == u.selectedQuality.GetOr(prev.selectedQuality);
    } else {
      assert m.isSeeking == u.isSeeking.GetOr(prev.isSeeking);
    }
  }

  /** The combined update gives each property the later update's value when it has
      one, and the earlier one's otherwise. */
  lemma ThenField(first: StateUpdate, second: StateUpdate, f: Field)
    ensures Given(Then(first, second), f) == if Given(second, f).Some? then Given(second, f) else Given(first, f)
  {
    match f
    case Playing =>
    case CurrentTime =>
    case Duration =>
    case Volume =>
    case IsMuted =>
    case PlaybackRate =>
    case ShowControls =>
    case IsFullscreen =>
    case ShowSettings =>
    case ShowQualityMenu =>
    case ShowPlaybackMenu =>
    case IsHovered =>
    case SeekPreviewTime =>
    case SeekPreviewVisible =>
    case VideoLoaded =>
    case Qualities =>
    case SelectedQuality =>
    case IsSeeking =>
  }

  /** The combined update mentions exactly what either update mentions. */
  lemma ThenMentions(first: StateUpdate, second: StateUpdate)
    ensures Mentions(Then(first, second)) == Mentions(first) + Mentions(second)
  {
    forall f ensures f in Mentions(Then(first, second)) <==> f in Mentions(first) + Mentions(second) {
      ThenField(first, second, f);
    }
  }

  /** Two records that agree on every property are the same record. */
  lemma FieldsDetermine(a: PlayerState, b: PlayerState)
    requires forall f :: Get(a, f) == Get(b, f)
    ensures a == b
  {
    AgreeFirst(a, b);
    AgreeMiddle(a, b);
    AgreeLast(a, b);
  }

  lemma AgreeFirst(a: PlayerState, b: PlayerState)
    requires forall f :: Get(a, f) == Get(b, f)
    ensures a.playing == b.playing && a.currentTime == b.currentTime && a.duration == b.duration && a.volume == b.volume && a.isMuted == b.isMuted && a.playbackRate == b.playbackRate
  {
    assert Get(a, Playing) == Get(b, Playing);
    assert Get(a, CurrentTime) == Get(b, CurrentTime);
    assert Get(a, Duration) == Get(b, Duration);
    assert Get(a, Volume) == Get(b, Volume);
    assert Get(a, IsMuted) == Get(b, IsMuted);
    assert Get(a, PlaybackRate) == Get(b, PlaybackRate);
  }

  lemma AgreeMiddle(a: PlayerState, b: PlayerState)
    requires forall f :: Get(a, f) == Get(b, f)
    ensures a.showControls == b.showControls && a.isFullscreen == b.isFullscreen && a.showSettings == b.showSettings && a.showQualityMenu == b.showQualityMenu && a.showPlaybackMenu == b.showPlaybackMenu && a.isHovered == b.isHovered
  {
    assert Get(a, ShowControls) == Get(b, ShowControls);
    assert Get(a, IsFullscreen) == Get(b, IsFullscreen);
    assert Get(a, ShowSettings) == Get(b, ShowSettings);
    assert Get(a, ShowQualityMenu) == Get(b, ShowQualityMenu);
    assert Get(a, ShowPlaybackMenu) == Get(b, ShowPlaybackMenu);
    assert Get(a, IsHovered) == Get(b, IsHovered);
  }

  lemma AgreeLast(a: PlayerState, b: PlayerState)
    requires forall f :: Get(a, f) == Get(b, f)
    ensures a.seekPreviewTime == b.seekPreviewTime && a.seekPreviewVisible == b.seekPreviewVisible && a.videoLoaded == b.videoLoaded && a.qualities == b.qualities && a.selectedQuality == b.selectedQuality && a.isSeeking == b.isSeeking
  {
    assert Get(a, SeekPreviewTime) == Get(b, SeekPreviewTime);
    assert Get(a, SeekPreviewVisible) == Get(b, SeekPreviewVisible);
    assert Get(a, VideoLoaded) == Get(b, VideoLoaded);
    assert Get(a, Qualities) == Get(b, Qualities);
    assert Get(a, SelectedQuality) == Get(b, SelectedQuality);
    assert Get(a, IsSeeking) == Get(b, IsSeeking);
  }

  /** The empty update mentions nothing and changes nothing. */
  lemma MergeNoChange(prev: PlayerState)
    ensures Mentions(NoChange) == {}
    ensures Merge(prev, NoChange) == prev
  {
    forall f ensures Given(NoChange, f).None? {
      match f
      case Playing =>
      case CurrentTime =>
      case Duration =>
      case Volume =>
      case IsMuted =>
      case PlaybackRate =>
      case ShowControls =>
      case IsFullscreen =>
      case ShowSettings =>
      case ShowQualityMenu =>
      case ShowPlaybackMenu =>
      case IsHovered =>
      case SeekPreviewTime =>
      case SeekPreviewVisible =>
      case VideoLoaded =>
      case Qualities =>
      case SelectedQuality =>
      case IsSeeking =>
    }
  }

  /** Two successive updates have the effect of one update in which the later one wins. */
  lemma MergeThen(prev: PlayerState, first: StateUpdate, second: StateUpdate)
    ensures Merge(Merge(prev, first), second) == Merge(prev, Then(first, second))
  {
    var a := Merge(Merge(prev, first), second);
    var b := Merge(prev, Then(first, second));
    forall f ensures Get(a, f) == Get(b, f) {
      MergeField(prev, first, f);
      MergeField(Merge(prev, first), second, f);
      MergeField(prev, Then(first, second), f);
      ThenField(first, second, f);
    }
    FieldsDetermine(a, b);
  }

  /** Applying the same update twice is applying it once. */
  lemma MergeIdempotent(prev: PlayerState, u: StateUpdate)
    ensures Merge(Merge(prev, u), u) == Merge(prev, u)
  {
    forall f ensures Get(Merge(Merge(prev, u), u), f) == Get(Merge(prev, u), f) {
      MergeField(prev, u, f);
      MergeField(Merge(prev, u), u, f);
    }
    FieldsDetermine(Merge(Merge(prev, u), u), Merge(prev, u));
  }

  /** An update changes at most the properties it mentions. */
  lemma MergeChangesOnlyMentioned(prev: PlayerState, u: StateUpdate, f: Field)
    requires Get(Merge(prev, u), f) != Get(prev, f)
    ensures f in Mentions(u)
  {
    MergeField(prev, u, f);
  }

  /** At most one of the three menus is open. */
  predicate MenusAtMostOne(st: PlayerState) {
    (st.showSettings ==> !st.showQualityMenu && !st.showPlaybackMenu)
    && (st.showQualityMenu ==> !st.showPlaybackMenu)
  }

  /** An update that cannot break `MenusAtMostOne`: it opens no menu, or it opens
      exactly one and closes the other two. */
  predicate MenuSafe(u: StateUpdate) {
    var noneOpened := u.showSettings != Some(true) && u.showQualityMenu != Some(true) && u.showPlaybackMenu != Some(true);
    noneOpened
    || (u.showSettings == Some(true) && u.showQualityMenu == Some(false) && u.showPlaybackMenu == Some(false))
    || (u.showQualityMenu == Some(true) && u.showSettings == Some(false) && u.showPlaybackMenu == Some(false))
    || (u.showPlaybackMenu == Some(true) && u.showSettings == Some(false) && u.showQualityMenu == Some(false))
  }

  /** A menu-safe update keeps at most one menu open. */
  lemma MenuSafeKeepsAtMostOne(st: PlayerState, u: StateUpdate)
    requires MenusAtMostOne(st) && MenuSafe(u)
    ensures MenusAtMostOne(Merge(st, u))
  {
  }

  /** `formatTime(seconds)`: whole minutes, a colon, then the whole seconds of the
      remainder, with a `0` in front when they are below ten. Minutes are never
      carried into hours. */
  function FormatTime(seconds: real): string {
    Clock(Floor(seconds / 60.0), Floor(Rem(seconds, 60.0)))
  }

  /** The template literal of `formatTime`, given its two parts. */
  function Clock(mins: int, secs: int): string {
    IntToString(mins) + ":" + (if secs < 10 then "0" else "") + IntToString(secs)
  }

  /** With non-negative parts and seconds below 60 the seconds come out as two
      digits. */
  lemma ClockNat(mins: nat, secs: nat)
    requires secs < 60
    ensures Clock(mins, secs) == NatToString(mins) + ":" + TwoDigits(secs)
  {
    if secs < 10 {
      assert "0" + NatToString(secs) == TwoDigits(secs);
    }
  }

  /** For a non-negative time the rendering is the whole minutes and the two-digit
      seconds of `Floor(seconds)`. */
  lemma FormatTimeWhole(seconds: real)
    requires seconds >= 0.0
    ensures FormatTime(seconds) == NatToString(Floor(seconds) / 60) + ":" + TwoDigits(Floor(seconds) % 60)
  {
    MinutesAndSeconds(seconds);
    ClockNat(Floor(seconds) / 60, Floor(seconds) % 60);
  }

  /** The two parts `formatTime` computes, for a non-negative time, in terms of the
      whole seconds. */
  lemma MinutesAndSeconds(seconds: real)
    requires seconds >= 0.0
    ensures Floor(seconds) >= 0
    ensures Floor(seconds / 60.0) == Floor(seconds) / 60
    ensures Floor(Rem(seconds, 60.0)) == Floor(seconds) % 60
  {
    FloorOfQuotient(seconds, 60);
    FloorOfRem(seconds, 60);
  }

  /** Reading the rendering back: the part before the colon and the two digits after
      it give the whole seconds again, and the seconds part is below 60. */
  lemma FormatTimeReadBack(seconds: real)
    requires seconds >= 0.0
    ensures var r := FormatTime(seconds); var k := |r| - 3;
      |r| >= 4 && r[k] == ':' && AllDigits(r[..k]) && AllDigits(r[k + 1..])
      && ParseNat(r[k + 1..]) < 60
      && ParseNat(r[..k]) * 60 + ParseNat(r[k + 1..]) == Floor(seconds)
  {
    FormatTimeWhole(seconds);
    MinutesAndSeconds(seconds);
    WholeReadBack(FormatTime(seconds), Floor(seconds));
  }

  /** The rendering of a count of whole seconds as minutes and seconds reads back
      as that count. */
  lemma WholeReadBack(r: string, f: nat)
    requires r == NatToString(f / 60) + ":" + TwoDigits(f % 60)
    ensures var k := |r| - 3;
      |r| >= 4 && r[k] == ':' && AllDigits(r[..k]) && AllDigits(r[k + 1..])
      && ParseNat(r[k + 1..]) < 60
      && ParseNat(r[..k]) * 60 + ParseNat(r[k + 1..]) == f
  {
    ReadBackMinutes(r, f / 60, f % 60, f);
  }

  /** An hour is shown as sixty minutes. */
  lemma FormatTimeOneHour()
    ensures FormatTime(3600.0) == "60:00"
  {
    FormatTimeWhole(3600.0);
    assert Floor(3600.0) == 3600;
    assert NatToString(60) == NatToString(6) + [DigitChar(0)];
  }
}
