/** The streaming adapter: attaching a source to the media element (through the
    engine when it is supported, natively otherwise), turning the engine's level
    list into the quality menu, mirroring the element's events into the state, the
    teardown, and switching quality. */
module HlsPlayer {
  import opened Base
  import opened JsText
  import opened VideoState
  import opened PlayerSession

  /** A rendition as the engine lists it; an empty `name` is falsy and means unnamed. */
  datatype EngineLevel = EngineLevel(name: string, width: int, height: int)

  /** A level's menu label: its name, or its height followed by `p`. */
  function LevelLabel(level: EngineLevel): string {
    if level.name != "" then level.name else IntToString(level.height) + "p"
  }

  /** The menu entry for the level at `index` of the engine's list. */
  function MapLevel(level: EngineLevel, index: int): QualityLevel {
    QualityLevel(index, LevelLabel(level), IntToString(level.width) + "x" + IntToString(level.height), level.height)
  }

  /** `data.levels.map(...)`: one entry per level, identified by its position. */
  function MapLevels(levels: seq<EngineLevel>): (r: seq<QualityLevel>)
    ensures |r| == |levels|
    ensures forall i :: 0 <= i < |levels| ==> r[i] == MapLevel(levels[i], i)
  {
    seq(|levels|, i requires 0 <= i < |levels| => MapLevel(levels[i], i))
  }

  /** An unnamed level's label reads back as its height; a resolution reads back as
      width and height. */
  lemma MapLevelReadBack(level: EngineLevel, index: int)
    requires level.width >= 0 && level.height >= 0
    ensures var q := MapLevel(level, index);
      q.id == index && q.height == level.height
      && (level.name != "" ==> q.labelText == level.name)
      && (level.name == "" ==>
            |q.labelText| >= 2 && q.labelText[|q.labelText| - 1] == 'p'
            && AllDigits(q.labelText[..|q.labelText| - 1])
            && ParseNat(q.labelText[..|q.labelText| - 1]) == level.height)
      && var w := NatToString(level.width);
         |q.resolution| > |w| && q.resolution[|w|] == 'x'
         && ParseNat(q.resolution[..|w|]) == level.width
         && AllDigits(q.resolution[|w| + 1..])
         && ParseNat(q.resolution[|w| + 1..]) == level.height
  {
    var q := MapLevel(level, index);
    var w := NatToString(level.width);
    var h := NatToString(level.height);
    assert q.resolution == w + "x" + h;
    assert q.resolution[..|w|] == w;
    assert q.resolution[|w| + 1..] == h;
    ParseNatToString(level.width);
    ParseNatToString(level.height);
    if level.name == "" {
      assert q.labelText == h + "p";
      assert q.labelText[..|q.labelText| - 1] == h;
    }
  }

  /** The ordering the sort produces: taller first. */
  predicate TallerFirst(q: seq<QualityLevel>) {
    forall i, j :: 0 <= i < j < |q| ==> q[i].height >= q[j].height
  }

  /** `a` precedes `b`: taller, or as tall and listed earlier by the engine. */
  predicate Precedes(a: QualityLevel, b: QualityLevel) {
    a.height > b.height || (a.height == b.height && a.id < b.id)
  }

  /** Every entry precedes every later one. */
  predicate Ranked(q: seq<QualityLevel>) {
    forall i, j :: 0 <= i < j < |q| ==> Precedes(q[i], q[j])
  }

  /** Inserts `x` before the first entry that is not taller than it. */
  function InsertByHeight(x: QualityLevel, q: seq<QualityLevel>): seq<QualityLevel> {
    if q == [] || q[0].height <= x.height then [x] + q
    else [q[0]] + InsertByHeight(x, q[1..])
  }

  /** `levels.sort((a, b) => b.height - a.height)`, the engine's sort being stable:
      an insertion sort by descending height that keeps equally tall entries in
      their original order. */
  function SortByHeight(q: seq<QualityLevel>): seq<QualityLevel> {
    if q == [] then [] else InsertByHeight(q[0], SortByHeight(q[1..]))
  }

  lemma {:induction false} InsertMultiset(x: QualityLevel, q: seq<QualityLevel>)
    ensures multiset(InsertByHeight(x, q)) == multiset(q) + multiset{x}
    decreases |q|
  {
    if q == [] || q[0].height <= x.height {
    } else {
      InsertMultiset(x, q[1..]);
      assert q == [q[0]] + q[1..];
    }
  }

  lemma {:induction false} InsertTallerFirst(x: QualityLevel, q: seq<QualityLevel>)
    requires TallerFirst(q)
    ensures TallerFirst(InsertByHeight(x, q))
    decreases |q|
  {
    if q == [] || q[0].height <= x.height {
    } else {
      var rest := InsertByHeight(x, q[1..]);
      InsertTallerFirst(x, q[1..]);
      InsertMultiset(x, q[1..]);
      forall j | 0 <= j < |rest| ensures q[0].height >= rest[j].height {
        assert rest[j] in multiset(rest);
        if rest[j] != x {
          assert rest[j] in multiset(q[1..]);
          var k :| 0 <= k < |q[1..]| && q[1..][k] == rest[j];
          assert q[k + 1] == rest[j];
        }
      }
    }
  }

  lemma {:induction false} InsertRanked(x: QualityLevel, q: seq<QualityLevel>)
    requires Ranked(q)
    requires forall i :: 0 <= i < |q| ==> x.id < q[i].id
    ensures Ranked(InsertByHeight(x, q))
    decreases |q|
  {
    if q == [] || q[0].height <= x.height {
      forall j | 0 <= j < |q| ensures Precedes(x, q[j]) {
        if j > 0 {
          assert Precedes(q[0], q[j]);
        }
      }
      ConsRanked(x, q);
    } else {
      InsertRanked(x, q[1..]);
      HeadPrecedesInsert(x, q);
      ConsRanked(q[0], InsertByHeight(x, q[1..]));
    }
  }

  /** An entry that precedes every entry of a ranked list can go in front of it. */
  lemma ConsRanked(a: QualityLevel, rest: seq<QualityLevel>)
    requires Ranked(rest)
    requires forall j :: 0 <= j < |rest| ==> Precedes(a, rest[j])
    ensures Ranked([a] + rest)
  {
    var r := [a] + rest;
    forall i, j | 0 <= i < j < |r| ensures Precedes(r[i], r[j]) {
      if i == 0 {
        assert r[j] == rest[j - 1];
      } else {
        assert r[i] == rest[i - 1] && r[j] == rest[j - 1];
      }
    }
  }

  /** The head of a ranked list that is taller than `x` precedes everything the
      insertion into its tail yields. */
  lemma HeadPrecedesInsert(x: QualityLevel, q: seq<QualityLevel>)
    requires Ranked(q) && q != [] && q[0].height > x.height
    ensures forall j :: 0 <= j < |InsertByHeight(x, q[1..])| ==> Precedes(q[0], InsertByHeight(x, q[1..])[j])
  {
    var rest := InsertByHeight(x, q[1..]);
    InsertMultiset(x, q[1..]);
    forall j | 0 <= j < |rest| ensures Precedes(q[0], rest[j]) {
      assert rest[j] in multiset(rest);
      if rest[j] != x {
        assert rest[j] in multiset(q[1..]);
        var k :| 0 <= k < |q[1..]| && q[1..][k] == rest[j];
        assert q[k + 1] == rest[j];
      }
    }
  }

  /** The sort only reorders. */
  lemma {:induction false} SortPermutes(q: seq<QualityLevel>)
    ensures multiset(SortByHeight(q)) == multiset(q)
  {
    if q != [] {
      SortPermutes(q[1..]);
      InsertMultiset(q[0], SortByHeight(q[1..]));
      assert q == [q[0]] + q[1..];
    }
  }

  /** The sort puts taller renditions first, whatever the input. */
  lemma {:induction false} SortTallerFirst(q: seq<QualityLevel>)
    ensures TallerFirst(SortByHeight(q))
  {
    if q != [] {
      SortTallerFirst(q[1..]);
      InsertTallerFirst(q[0], SortByHeight(q[1..]));
    }
  }

  /** With ids increasing along the input (as `MapLevels` numbers them), the sort is
      stable: equally tall entries come out in their original order. */
  lemma {:induction false} SortRanked(q: seq<QualityLevel>)
    requires forall i, j :: 0 <= i < j < |q| ==> q[i].id < q[j].id
    ensures Ranked(SortByHeight(q))
  {
    if q != [] {
      var sorted := SortByHeight(q[1..]);
      SortRanked(q[1..]);
      SortPermutes(q[1..]);
      forall i | 0 <= i < |sorted| ensures q[0].id < sorted[i].id {
        assert sorted[i] in multiset(sorted);
        assert sorted[i] in multiset(q[1..]);
        var k :| 0 <= k < |q[1..]| && q[1..][k] == sorted[i];
        assert q[k + 1] == sorted[i];
      }
      InsertRanked(q[0], sorted);
    }
  }

  /** Two ranked orderings of the same entries start with the same entry. */
  lemma RankedHeadsAgree(p: seq<QualityLevel>, q: seq<QualityLevel>)
    requires Ranked(p) && Ranked(q) && multiset(p) == multiset(q) && p != []
    ensures q != [] && p[0] == q[0]
  {
    assert p[0] in multiset(q);
    var m :| 0 <= m < |q| && q[m] == p[0];
    assert q[0] in multiset(p);
    var k :| 0 <= k < |p| && p[k] == q[0];
  }

  /** Removing the same first entry from two permutations leaves permutations. */
  lemma TailsPermute(p: seq<QualityLevel>, q: seq<QualityLevel>)
    requires p != [] && q != [] && p[0] == q[0] && multiset(p) == multiset(q)
    ensures multiset(p[1..]) == multiset(q[1..])
  {
    assert p == [p[0]] + p[1..] && q == [q[0]] + q[1..];
    assert multiset(p[1..]) == multiset(p) - multiset{p[0]};
    assert multiset(q[1..]) == multiset(q) - multiset{q[0]};
  }

  /** A ranked ordering of a given collection is unique: the sort's output is the
      one arrangement of the entries by descending height, then ascending id. */
  lemma {:induction false} RankedUnique(p: seq<QualityLevel>, q: seq<QualityLevel>)
    requires Ranked(p) && Ranked(q) && multiset(p) == multiset(q)
    ensures p == q
    decreases |p|
  {
    if p == [] {
      assert |q| == |multiset(q)| == 0;
    } else {
      RankedHeadsAgree(p, q);
      TailsPermute(p, q);
      assert Ranked(p[1..]) && Ranked(q[1..]);
      RankedUnique(p[1..], q[1..]);
      assert p == [p[0]] + p[1..] && q == [q[0]] + q[1..];
    }
  }

  /** The quality menu built from the engine's levels at `MANIFEST_PARSED`. */
  function QualityList(levels: seq<EngineLevel>): seq<QualityLevel> {
    SortByHeight(MapLevels(levels))
  }

  /** The menu holds exactly the mapped levels, taller first, equally tall levels in
      the engine's order, and it is the only list with these properties. */
  lemma QualityListSpec(levels: seq<EngineLevel>, other: seq<QualityLevel>)
    ensures var q := QualityList(levels);
      multiset(q) == multiset(MapLevels(levels)) && |q| == |levels|
      && TallerFirst(q) && Ranked(q)
      && (Ranked(other) && multiset(other) == multiset(MapLevels(levels)) ==> other == q)
  {
    var mapped := MapLevels(levels);
    var q := QualityList(levels);
    SortPermutes(mapped);
    SortTallerFirst(mapped);
    SortRanked(mapped);
    assert |q| == |multiset(q)| == |multiset(mapped)| == |levels|;
    if Ranked(other) && multiset(other) == multiset(mapped) {
      RankedUnique(other, q);
    }
  }

  /** Whether the adapter's engine is attached and can still emit events. */
  predicate LiveEngine(engine: Option<Engine>) {
    engine.Some? && !engine.value.destroyed
  }

  /** The adapter's effect for `url`. Without the element or with an empty URL it
      does nothing (and leaves no cleanup). Otherwise, when the engine is
      supported, a fresh engine loads the URL with automatic level selection; when
      only native playback is, the element gets the URL as its source plus an
      anonymous `loadedmetadata` listener; with neither, no source is attached. In
      all three cases the five named media listeners are registered. */
  method HlsSetup(s: PlayerSession, url: string, engineSupported: bool, nativeSupported: bool)
    modifies s`engine, s`nativeSrc, s`metadataListeners, s`mediaListeners
    ensures !s.hasVideo || url == "" ==>
      s.engine == old(s.engine) && s.nativeSrc == old(s.nativeSrc)
      && s.metadataListeners == old(s.metadataListeners) && s.mediaListeners == old(s.mediaListeners)
    ensures s.hasVideo && url != "" ==> s.mediaListeners == AllMediaEvents
    ensures s.hasVideo && url != "" && engineSupported ==>
      s.engine == Some(Engine(url, -1, false)) && s.nativeSrc == old(s.nativeSrc) && s.metadataListeners == old(s.metadataListeners)
    ensures s.hasVideo && url != "" && !engineSupported && nativeSupported ==>
      s.engine == old(s.engine) && s.nativeSrc == Some(url) && s.metadataListeners == old(s.metadataListeners) + 1
    ensures s.hasVideo && url != "" && !engineSupported && !nativeSupported ==>
      s.engine == old(s.engine) && s.nativeSrc == old(s.nativeSrc) && s.metadataListeners == old(s.metadataListeners)
  {
    if !s.hasVideo || url == "" {
      return;
    }
    if engineSupported {
      s.engine := Some(Engine(url, -1, false));
    } else if nativeSupported {
      s.nativeSrc := Some(url);
      s.metadataListeners := s.metadataListeners + 1;
    }
    s.mediaListeners := AllMediaEvents;
  }

  /** The effect's cleanup: the five named listeners go, and the engine in the ref,
      if any, is destroyed. The ref keeps pointing at it, and the anonymous
      `loadedmetadata` listeners stay. */
  method HlsTeardown(s: PlayerSession)
    modifies s`engine, s`mediaListeners
    ensures s.mediaListeners == {}
    ensures old(s.engine).None? ==> s.engine == None
    ensures old(s.engine).Some? ==> s.engine == Some(old(s.engine).value.(destroyed := true))
  {
    s.mediaListeners := {};
    if s.engine.Some? {
      s.engine := Some(s.engine.value.(destroyed := true));
    }
  }

  /** The engine's `MANIFEST_PARSED`: loaded, the element's duration in both the
      state and `durationRef`, the quality menu from the levels, and the engine's
      current level as the selection. Only a live engine emits it. */
  method ManifestParsed(s: PlayerSession, levels: seq<EngineLevel>)
    requires s.Valid()
    modifies s`state, s`durationRef
    ensures s.Valid()
    ensures !LiveEngine(s.engine) ==> s.state == old(s.state) && s.durationRef == old(s.durationRef)
    ensures LiveEngine(s.engine) ==>
      s.durationRef == s.nativeDuration
      && s.state == old(s.state).(videoLoaded := true, duration := s.nativeDuration,
                                  qualities := QualityList(levels), selectedQuality := Some(s.engine.value.currentLevel))
  {
    if !LiveEngine(s.engine) {
      return;
    }
    SetLoaded(s);
    SetQualities(s, QualityList(levels), s.engine.value.currentLevel);
  }

  /** `updateState({ videoLoaded: true, duration: video.duration })` and the ref. */
  method SetLoaded(s: PlayerSession)
    requires s.Valid()
    modifies s`state, s`durationRef
    ensures s.Valid()
    ensures s.durationRef == s.nativeDuration
    ensures s.state == old(s.state).(videoLoaded := true, duration := s.nativeDuration)
  {
    s.UpdateState(NoChange.(videoLoaded := Some(true), duration := Some(s.nativeDuration)));
    assert MenusAtMostOne(s.state);
    s.durationRef := s.nativeDuration;
  }

  /** `updateState({ qualities, selectedQuality })`. */
  method SetQualities(s: PlayerSession, qualities: seq<QualityLevel>, selected: int)
    requires s.Valid()
    modifies s`state
    ensures s.Valid()
    ensures s.state == old(s.state).(qualities := qualities, selectedQuality := Some(selected))
  {
    s.UpdateState(NoChange.(qualities := Some(qualities), selectedQuality := Some(Some(selected))));
    assert MenusAtMostOne(s.state);
  }

  /** The engine switches rendition and emits `LEVEL_SWITCHED`: the selection follows. */
  method LevelSwitched(s: PlayerSession, level: int)
    requires s.Valid()
    modifies s`state, s`engine
    ensures s.Valid()
    ensures !LiveEngine(old(s.engine)) ==> s.state == old(s.state) && s.engine == old(s.engine)
    ensures LiveEngine(old(s.engine)) ==>
      s.engine == Some(old(s.engine).value.(currentLevel := level))
      && s.state == old(s.state).(selectedQuality := Some(level))
  {
    if !LiveEngine(s.engine) {
      return;
    }
    s.engine := Some(s.engine.value.(currentLevel := level));
    s.UpdateState(NoChange.(selectedQuality := Some(Some(level))));
    assert MenusAtMostOne(s.state);
  }

  /** The state after the named listener for `ev` ran, given the element's position
      and length. */
  function Mirror(st: PlayerState, ev: MediaEvent, time: real, duration: real): PlayerState {
    match ev
    case TimeUpdate => st.(currentTime := time)
    case DurationChange => st.(duration := duration)
    case Play => st.(playing := true)
    case Pause => st.(playing := false)
    case LoadedMetadata => st.(duration := duration)
  }

  /** The state field each named listener writes. */
  function MirroredField(ev: MediaEvent): Field {
    match ev
    case TimeUpdate => CurrentTime
    case Play => Playing
    case Pause => Playing
    case _ => Duration
  }

  /** Each media listener writes its one field and leaves every other alone; after
      `play` the video counts as playing and after `pause` it does not. */
  lemma MirrorWritesOneField(st: PlayerState, ev: MediaEvent, time: real, duration: real, f: Field)
    ensures f != MirroredField(ev) ==> Get(Mirror(st, ev, time, duration), f) == Get(st, f)
    ensures ev == Play ==> Mirror(st, ev, time, duration).playing
    ensures ev == Pause ==> !Mirror(st, ev, time, duration).playing
  {
    match ev {
      case TimeUpdate => assert Mirror(st, ev, time, duration) == st.(currentTime := time);
      case DurationChange => assert Mirror(st, ev, time, duration) == st.(duration := duration);
      case Play => assert Mirror(st, ev, time, duration) == st.(playing := true);
      case Pause => assert Mirror(st, ev, time, duration) == st.(playing := false);
      case LoadedMetadata => assert Mirror(st, ev, time, duration) == st.(duration := duration);
    }
  }

  /** The named listener for `ev`: `updateState` with the mirrored value, and the
      length also into `durationRef`. */
  method NamedMediaListener(s: PlayerSession, ev: MediaEvent)
    requires s.Valid()
    modifies s`state, s`durationRef
    ensures s.Valid()
    ensures s.state == Mirror(old(s.state), ev, s.nativeTime, s.nativeDuration)
    ensures s.durationRef == if ev in {DurationChange, LoadedMetadata} then s.nativeDuration else old(s.durationRef)
  {
    match ev {
      case TimeUpdate =>
        s.UpdateState(NoChange.(currentTime := Some(s.nativeTime)));
      case DurationChange =>
        s.UpdateState(NoChange.(duration := Some(s.nativeDuration)));
        s.durationRef := s.nativeDuration;
      case Play =>
        s.UpdateState(NoChange.(playing := Some(true)));
      case Pause =>
        s.UpdateState(NoChange.(playing := Some(false)));
      case LoadedMetadata =>
        s.UpdateState(NoChange.(duration := Some(s.nativeDuration)));
        s.durationRef := s.nativeDuration;
    }
    assert MenusAtMostOne(s.state);
  }

  /** The element fires `ev`. The anonymous `loadedmetadata` listeners of the native
      path, added first, mark the video loaded and copy the length; then the named
      listener, if registered, mirrors position (`timeupdate`), length
      (`durationchange`, `loadedmetadata`, also into `durationRef`) or the playing
      flag (`play`, `pause`). */
  method MediaEventFired(s: PlayerSession, ev: MediaEvent)
    requires s.Valid()
    modifies s`state, s`durationRef
    ensures s.Valid()
    ensures var anon := ev == LoadedMetadata && s.metadataListeners > 0;
      var afterAnon := if anon then old(s.state).(videoLoaded := true, duration := s.nativeDuration) else old(s.state);
      s.state == (if ev in s.mediaListeners then Mirror(afterAnon, ev, s.nativeTime, s.nativeDuration) else afterAnon)
    ensures s.durationRef ==
      if (ev == LoadedMetadata && s.metadataListeners > 0) || (ev in s.mediaListeners && ev in {DurationChange, LoadedMetadata})
      then s.nativeDuration else old(s.durationRef)
  {
    if ev == LoadedMetadata && s.metadataListeners > 0 {
      SetLoaded(s);
    }
    if ev in s.mediaListeners {
      NamedMediaListener(s, ev);
    }
  }

  /** Which rendition the menu's choice asks for; -1 is automatic selection. */
  const AutoLevel: int := -1

  /** `setQuality(levelId)`'s update: the selection, with the quality menu and the
      settings panel closed; the rate menu is not mentioned. */
  function QualityUpdate(levelId: int): (u: StateUpdate)
    ensures MenuSafe(u) && u.showPlaybackMenu == None
  {
    NoChange.(selectedQuality := Some(Some(levelId)), showQualityMenu := Some(false), showSettings := Some(false))
  }

  /** Choosing a quality writes the selection and closes two menus, nothing else. */
  lemma QualityUpdateMentions(levelId: int)
    ensures Mentions(QualityUpdate(levelId)) == {SelectedQuality, ShowQualityMenu, ShowSettings}
  {
    var u := QualityUpdate(levelId);
    forall f: Field ensures f in Mentions(u) <==> f in {SelectedQuality, ShowQualityMenu, ShowSettings} {
      match f {
        case SelectedQuality =>
        case ShowQualityMenu =>
        case ShowSettings =>
        case _ =>
      }
    }
  }

  /** `setQuality(levelId)`: with an engine in the ref (even a destroyed one) the
      engine's level and the selection become `levelId` and the quality menu and
      settings close, leaving the rate menu alone; with none, nothing changes. The
      controls timer is not touched. */
  method SetQuality(s: PlayerSession, levelId: int)
    requires s.Valid()
    modifies s`state, s`engine
    ensures s.Valid()
    ensures old(s.engine).None? ==> s.state == old(s.state) && s.engine == None
    ensures old(s.engine).Some? ==>
      s.engine == Some(old(s.engine).value.(currentLevel := levelId))
      && s.state == old(s.state).(selectedQuality := Some(levelId), showQualityMenu := false, showSettings := false)
  {
    if s.engine.None? {
      return;
    }
    s.engine := Some(s.engine.value.(currentLevel := levelId));
    MenuSafeKeepsAtMostOne(s.state, QualityUpdate(levelId));
    s.UpdateState(QualityUpdate(levelId));
  }
}
