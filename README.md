# Youvid frontend: player view-model, mappers, mock API and sign-in, in Dafny

This project models the core of the Youvid video-sharing frontend and proves
properties of that model.

**The HLS video player's view-model.** This is one record of eighteen properties,
updated by partial merges.
- The split hooks under `hooks/player/` manage it: state, controls auto-hide,
  playback controls, seeking, fullscreen, keyboard shortcuts, the HLS adapter and
  their composition.
- The component `components/video/Video-player.tsx` derives its overlay flags from
  it and handles the pointer.
- The older single-hook variant `hooks/useVideoPlayer.ts` manages the same record.

**The other parts.**
- The backend-to-frontend key and value mapper (`lib/mappers.ts`).
- The in-memory mock API (`lib/api.ts`).
- The Redux authentication slice (`lib/features/auth-slice.ts`).
- The sign-in form's logic (`components/auth/login-form.tsx`).

**How the player is modelled.**
- A `PlayerSession` class holds the hooks' state cell.
- It also holds their refs: `durationRef`, the timer, the engine and the drag
  listeners.
- It holds the part of the browser the hooks touch as well: the media element's
  properties, listener registrations, the document's fullscreen flag and a
  millisecond clock.
- Each hook is a module of methods on that class, with field-level `modifies`
  frames. Each handler and effect states its whole new state, branch by branch.
  The key handlers state it through a two-state predicate `KeyDownEffect`.
- The methods of `Scenarios` run several handlers in a row. They state only the
  outcome each scenario is about, not every field it touches.

**Stale closures.** React callbacks close over the render they were built in. A
method that models a callback takes that render's state as a parameter `seen`,
so stale closures are explicit. The single-hook variant keeps its memoized
callbacks' renders in `closures` and rebuilds them in `Commit`, following each
`useCallback` dependency list.

**Setters in the single-hook variant.** Its handlers that only use functional
`setState(prev => …)` updates behave as the split hooks' handlers do. These are
volume, toggleSettings, the menus, hover/preview and seek move/start/end, so the
split members model them. Its handlers that differ have members of their own in
`MonolithicPlayer`.

**The environment.**
- The streaming engine, the network, timers and the clock are parameters or
  fields set by environment methods (`ElementReports`, `DocumentFullscreen`,
  `AdvanceClock`).
- Backend calls of the thunks enter as their `Outcome`.

**Where code and description differ, the model follows the code.**
- The split keyboard hook maps `f` to play/pause. The single-hook variant maps it
  to fullscreen (`MonolithicPlayer.RoutesDifferOnlyAtF`).
- `formatTime` writes `m:ss` with unbounded minutes, so an hour is `60:00`.

## Model

| member | source | states |
|---|---|---|
| VideoState.MergeField | hooks/player/use-video-state.ts:52-54 | `{ ...prev, ...update }` gives every mentioned property the update's value and keeps every other |
| VideoState.ThenField | hooks/player/use-video-state.ts:52-54 | composing two updates gives each property the later update's value where it has one |
| VideoState.ThenMentions | hooks/player/use-video-state.ts:52-54 | the composed update mentions exactly the union of what both mention |
| VideoState.FieldsDetermine | hooks/player/use-video-state.ts:4-23 | two records agreeing on all eighteen properties are equal |
| VideoState.MergeNoChange | hooks/player/use-video-state.ts:52-54 | the empty update mentions nothing and changes nothing |
| VideoState.MergeThen | hooks/player/use-video-state.ts:52-54 | two successive updates equal one merged update in which the later wins |
| VideoState.MergeIdempotent | hooks/player/use-video-state.ts:52-54 | applying an update twice is applying it once |
| VideoState.MergeChangesOnlyMentioned | hooks/player/use-video-state.ts:52-54 | a property that changes is one the update mentions |
| VideoState.MenuSafeKeepsAtMostOne | hooks/player/use-player-controls.ts:87-111 | updates that open at most one menu and close the others keep at most one menu open |
| VideoState.FormatTimeWhole | hooks/player/use-video-state.ts:57-61 | for a non-negative time, the rendering is whole minutes, a colon and the two-digit seconds |
| VideoState.FormatTimeReadBack | hooks/player/use-video-state.ts:57-61 | the rendering parses back to the whole minutes and the whole seconds below 60 |
| VideoState.FormatTimeOneHour | hooks/player/use-video-state.ts:57-61 | 3600 seconds render as `60:00` |
| PlayerSession.PlayerSession.constructor | hooks/player/use-video-state.ts:27-46 | the first render holds the initial record (volume 80, rate 1, controls shown, nothing loaded) and `durationRef` 0 |
| PlayerSession.PlayerSession.UpdateState | hooks/player/use-video-state.ts:52-54 | the state cell becomes the merge of the old state with the update |
| PlayerSession.PlayerSession.ElementReports | hooks/player/use-hls-player.ts:81-88 | the media element's position and length change without any handler running |
| PlayerSession.PlayerSession.DocumentFullscreen | hooks/player/use-fullscreen.ts:32-42 | the document's fullscreen flag changes on its own |
| ControlsVisibility.AfterDelay | hooks/player/use-controls-visibility.ts:25-38 | a seeking render does nothing; otherwise the controls show and one hide is pending, due in 5000 ms, with `playing` captured |
| ControlsVisibility.Fired | hooks/player/use-controls-visibility.ts:33-37 | the timer hides the controls exactly when the closure captured `playing`, and no hide stays pending |
| ControlsVisibility.LastScheduleWins | hooks/player/use-controls-visibility.ts:28-33 | rescheduling clears the earlier timer: only the last schedule's closure and deadline remain |
| ControlsVisibility.ScheduledHideOutcome | hooks/player/use-controls-visibility.ts:25-38 | schedule then fire leaves the controls shown exactly when the scheduling render was paused |
| ControlsVisibility.HideControlsImmediately | hooks/player/use-controls-visibility.ts:16-22 | the pending hide is cancelled and only `showControls` becomes false |
| ControlsVisibility.HideControlsAfterDelay | hooks/player/use-controls-visibility.ts:25-38 | the state and timer become `AfterDelay` of the closure's render, at the current clock |
| ControlsVisibility.Fire | hooks/player/use-controls-visibility.ts:33-37 | the timer callback's effect is `Fired` |
| ControlsVisibility.AdvanceClock | hooks/player/use-controls-visibility.ts:33-37 | time passes, and a due hide fires; otherwise nothing changes |
| ControlsVisibility.VisibilityEffect | hooks/player/use-controls-visibility.ts:41-56 | with unchanged dependencies nothing happens; otherwise the previous cleanup cancels the timer, a playing render schedules a hide and a paused one shows the controls with no hide pending |
| ControlsVisibility.VisibilityBody | hooks/player/use-controls-visibility.ts:41-50 | the effect body's three cases: paused, playing and not seeking, playing and seeking |
| ControlsVisibility.VisibilityCleanup | hooks/player/use-controls-visibility.ts:51-55 | unmount cancels the pending hide |
| PlayerControls.ToggleSettingsUpdate | hooks/player/use-player-controls.ts:88-94 | settings become the negation of what the render saw, and both sub-menus close |
| PlayerControls.RateUpdate | hooks/player/use-player-controls.ts:72-76 | the rate is set, the rate menu and settings close, the quality menu is not mentioned |
| PlayerControls.VolumeMerge | hooks/player/use-player-controls.ts:44-48 | merging the volume update sets volume `v` and muted exactly when `v` is 0, nothing else |
| PlayerControls.MuteUpdate | hooks/player/use-player-controls.ts:59-60 | the mute flag is set and the volume is unchanged |
| PlayerControls.OpenMenusExclusive | hooks/player/use-player-controls.ts:97-111 | opening either sub-menu leaves exactly that menu open |
| PlayerControls.ToggleSettingsTwice | hooks/player/use-player-controls.ts:88-94 | toggling settings twice restores them, with both sub-menus closed |
| PlayerControls.TogglePlay | hooks/player/use-player-controls.ts:30-39 | without the element nothing happens; otherwise `pause()` if the render saw it playing, else `play()`, and the hide is rescheduled; `playing` is not written |
| PlayerControls.TogglePlayWith | hooks/player/use-player-controls.ts:30-39 | the same for the closure of any render `seen` |
| PlayerControls.HandleVolumeChange | hooks/player/use-player-controls.ts:42-55 | the state takes the volume and `isMuted == (v == 0)`; the element gets `v/100` when present |
| PlayerControls.ToggleMute | hooks/player/use-player-controls.ts:58-67 | the render's mute flag is flipped in the state and on the element, and the hide is rescheduled |
| PlayerControls.SetMutedWith | hooks/player/use-player-controls.ts:59-66 | the mute flag is stored and mirrored, and the hide is rescheduled by render `seen` |
| PlayerControls.RateChangeWith | hooks/player/use-player-controls.ts:70-85 | the rate reaches the state and the element, and render `seen`'s hide is rescheduled |
| PlayerControls.HandlePlaybackRateChange | hooks/player/use-player-controls.ts:70-85 | the same with the current render's hide |
| PlayerControls.ToggleSettings | hooks/player/use-player-controls.ts:88-94 | the state becomes the merge with the settings toggle |
| PlayerControls.OpenPlaybackMenu | hooks/player/use-player-controls.ts:97-103 | only the rate menu is open afterwards |
| PlayerControls.OpenQualityMenu | hooks/player/use-player-controls.ts:105-111 | only the quality menu is open afterwards |
| SeekHandlers.FractionOverBar | hooks/player/use-seek-handlers.ts:28-29 | a pointer over the bar gives a fraction in [0, 1] |
| SeekHandlers.ScaledWithin | hooks/player/use-seek-handlers.ts:30 | a fraction in [0, 1] of a length lies within [0, length] |
| SeekHandlers.ClickTime | hooks/player/use-seek-handlers.ts:28-30 | a click over the bar seeks within [0, duration] |
| SeekHandlers.ClampedFraction | hooks/player/use-seek-handlers.ts:77-80 | the drag fraction is clamped to [0, 1] and equals the raw fraction over the bar |
| SeekHandlers.DragTime | hooks/player/use-seek-handlers.ts:77-81 | the drag target never leaves [0, durationRef] |
| SeekHandlers.DragTimeEnds | hooks/player/use-seek-handlers.ts:77-81 | past either end of the bar the target sticks to that end |
| SeekHandlers.HandleProgressClick | hooks/player/use-seek-handlers.ts:23-45 | ignored while seeking or without bar or element; otherwise state and element jump to the click target and the hide is rescheduled |
| SeekHandlers.ProgressClickWith | hooks/player/use-seek-handlers.ts:23-45 | the same for the click handler of render `seen` |
| SeekHandlers.HandleProgressHover | hooks/player/use-seek-handlers.ts:48-62 | ignored without the bar or while seeking; otherwise the preview shows the hovered time and the position is untouched |
| SeekHandlers.HideSeekPreview | hooks/player/use-seek-handlers.ts:65-69 | the preview hides unless a drag is in progress |
| SeekHandlers.HandleSeekStart | hooks/player/use-seek-handlers.ts:103-111 | sets seeking and controls shown, and registers this render's move/up pair |
| SeekHandlers.HandleSeekMove | hooks/player/use-seek-handlers.ts:72-91 | position, preview and element all become the clamped drag target, and the preview shows |
| SeekHandlers.HandleSeekEnd | hooks/player/use-seek-handlers.ts:93-101 | ends the drag, hides the preview, removes both listeners and reschedules the hide |
| SeekHandlers.DocumentMouseMove | hooks/player/use-seek-handlers.ts:107 | a document move reaches the drag handler only while the pair is registered |
| SeekHandlers.DocumentMouseUp | hooks/player/use-seek-handlers.ts:108 | a document mouseup runs the registered end handler with its render |
| Fullscreen.ToggleFullscreen | hooks/player/use-fullscreen.ts:15-29 | without the player nothing happens; otherwise a request or exit is issued, `isFullscreen` is set to the target, and the hide is rescheduled |
| Fullscreen.ToggleFullscreenWith | hooks/player/use-fullscreen.ts:15-29 | the same with the hide of render `seen` |
| Fullscreen.RequestFullscreen | hooks/player/use-fullscreen.ts:18-25 | one request (or exit) is recorded, following the document's current flag |
| Fullscreen.SetFullscreenFlag | hooks/player/use-fullscreen.ts:22-25 | only `isFullscreen` changes |
| Fullscreen.FullscreenChange | hooks/player/use-fullscreen.ts:33-37 | the registered listener copies the document's flag into the state |
| Fullscreen.SetFullscreenListener | hooks/player/use-fullscreen.ts:39-41 | the listener is registered or removed |
| KeyboardShortcuts.Route | hooks/player/use-keyboard-shortcuts.ts:22-60 | the key table: space and `k` toggle play, `f` toggles play too, `m` mutes, four arrows, anything else is ignored |
| KeyboardShortcuts.SeekBackTarget | hooks/player/use-keyboard-shortcuts.ts:37 | five seconds back, not below 0 |
| KeyboardShortcuts.SeekForwardTarget | hooks/player/use-keyboard-shortcuts.ts:43 | five seconds forward, not past the duration |
| KeyboardShortcuts.ArrowTargetsWithin | hooks/player/use-keyboard-shortcuts.ts:36-47 | both seek targets stay inside [0, duration] |
| KeyboardShortcuts.VolumeUpTarget | hooks/player/use-keyboard-shortcuts.ts:49 | five points up, at most 100 |
| KeyboardShortcuts.VolumeDownTarget | hooks/player/use-keyboard-shortcuts.ts:55 | five points down, at least 0 |
| KeyboardShortcuts.VolumeTargetsWithin | hooks/player/use-keyboard-shortcuts.ts:48-59 | both volume targets stay in 0..100 |
| KeyboardShortcuts.HandleKeyDown | hooks/player/use-keyboard-shortcuts.ts:19-61 | per key (`KeyDownEffect`): nothing without the element or for an unhandled key; otherwise play/pause, mute, element seek or element volume computed from the render's state, the hide rescheduled, and every element property the key does not write unchanged; the default is prevented exactly for handled keys |
| KeyboardShortcuts.SeekArrow | hooks/player/use-keyboard-shortcuts.ts:36-47 | ArrowLeft/ArrowRight set only the element's position, five seconds back (not below 0) or forward (not past the length), and reschedule the hide |
| KeyboardShortcuts.VolumeArrow | hooks/player/use-keyboard-shortcuts.ts:48-59 | ArrowUp/ArrowDown set only the element's volume, five points up (at most 100) or down (at least 0) over 100, and reschedule the hide |
| KeyboardShortcuts.WindowKeyDown | hooks/player/use-keyboard-shortcuts.ts:63 | while the listener is registered a window keydown has the handler's whole effect (`KeyDownEffect`) and prevention; otherwise nothing changes |
| KeyboardShortcuts.SetKeyListener | hooks/player/use-keyboard-shortcuts.ts:63-64 | the listener is registered or removed |
| HlsPlayer.MapLevels | hooks/player/use-hls-player.ts:45-50 | one entry per level, with its index as id, its name or `<height>p` as label, and `WxH` as resolution |
| HlsPlayer.MapLevelReadBack | hooks/player/use-hls-player.ts:47-48 | an unnamed label and the resolution read back as the level's numbers |
| HlsPlayer.InsertMultiset | hooks/player/use-hls-player.ts:53 | one insertion step only adds the element |
| HlsPlayer.InsertTallerFirst | hooks/player/use-hls-player.ts:53 | an insertion step keeps the list sorted by descending height |
| HlsPlayer.InsertRanked | hooks/player/use-hls-player.ts:53 | an insertion step keeps ties in id order |
| HlsPlayer.SortPermutes | hooks/player/use-hls-player.ts:53 | the sort is a permutation |
| HlsPlayer.SortTallerFirst | hooks/player/use-hls-player.ts:53 | the sort puts taller renditions first |
| HlsPlayer.SortRanked | hooks/player/use-hls-player.ts:53 | the sort is stable: equally tall levels keep the engine's order |
| HlsPlayer.RankedHeadsAgree | hooks/player/use-hls-player.ts:53 | two ranked orderings of the same levels start alike |
| HlsPlayer.TailsPermute | hooks/player/use-hls-player.ts:53 | removing a shared head keeps a permutation |
| HlsPlayer.RankedUnique | hooks/player/use-hls-player.ts:53 | the ranked ordering of a collection is unique |
| HlsPlayer.QualityListSpec | hooks/player/use-hls-player.ts:45-56 | the menu holds exactly the mapped levels, taller first, ties in engine order, and any list with these properties equals it |
| HlsPlayer.HlsSetup | hooks/player/use-hls-player.ts:20-107 | without element or URL nothing; with engine support a fresh engine loads the URL; with only native support the element gets the URL and a metadata listener; the five media listeners are registered in each case |
| HlsPlayer.HlsTeardown | hooks/player/use-hls-player.ts:109-119 | the five listeners go and the engine in the ref is destroyed |
| HlsPlayer.ManifestParsed | hooks/player/use-hls-player.ts:37-59 | loaded, the element's duration in the state and the ref, the quality list, and the engine's current level selected |
| HlsPlayer.SetLoaded | hooks/player/use-hls-player.ts:38-43 | `videoLoaded` and the duration are set and `durationRef` follows |
| HlsPlayer.SetQualities | hooks/player/use-hls-player.ts:55-58 | the qualities and the selection are set |
| HlsPlayer.LevelSwitched | hooks/player/use-hls-player.ts:61-63 | the selection follows the switched level |
| HlsPlayer.MirrorWritesOneField | hooks/player/use-hls-player.ts:81-101 | each media listener writes exactly its one field |
| HlsPlayer.NamedMediaListener | hooks/player/use-hls-player.ts:81-101 | the listener mirrors position, length or playing, and the length into `durationRef` |
| HlsPlayer.MediaEventFired | hooks/player/use-hls-player.ts:71-107 | a media event runs the native metadata listener first, then the named listener, if registered |
| HlsPlayer.QualityUpdate | hooks/player/use-hls-player.ts:127-131 | the selection, with the quality menu and settings closed, the rate menu not mentioned |
| HlsPlayer.QualityUpdateMentions | hooks/player/use-hls-player.ts:127-131 | choosing a quality mentions exactly three properties |
| HlsPlayer.SetQuality | hooks/player/use-hls-player.ts:124-133 | with an engine in the ref its level and the selection change and two menus close; without one nothing changes |
| VideoPlayer.Mount | hooks/player/use-video-player.ts:49-121 | initial record; per branch the engine, the native source and the anonymous `loadedmetadata` count (engine loading the URL, native source with one listener, or nothing attached); controls shown with no hide pending; the fullscreen and key listeners registered |
| VideoPlayer.ChangeUrl | hooks/player/use-hls-player.ts:109-120 | a new URL re-runs only the streaming effect: the old engine is destroyed, then per branch a new engine, or the native source with one more `loadedmetadata` listener, or nothing; the view-model state is not reset |
| VideoPlayer.Unmount | hooks/player/use-video-player.ts:59-105 | every effect's cleanup runs: media listeners gone, engine destroyed, timer cleared and the visibility dependencies reset, both window and document listeners removed; a drag in progress keeps its document listeners |
| VideoPlayer.SetIsHovered | hooks/player/use-video-player.ts:116 | only `isHovered` changes |
| PlayerView.OverlayRules | components/video/Video-player.tsx:97-119 | loading and thumbnail overlays are never shown together; a paused player shows one of them, its controls and its centre button; the controls hide only when playing, not shown, not hovered and not seeking |
| PlayerView.InitialView | components/video/Video-player.tsx:97-119 | the first render shows loading, controls and centre button, and no thumbnail |
| PlayerView.MouseEnter | components/video/Video-player.tsx:71-74 | hovered, then the hide is rescheduled, and the overlay is visible |
| PlayerView.MouseLeave | components/video/Video-player.tsx:75-78 | not hovered, then the controls hide at once and the timer is cancelled |
| PlayerView.MouseMove | components/video/Video-player.tsx:79 | the hide is rescheduled |
| MonolithicPlayer.Mount | hooks/useVideoPlayer.ts:64-83 | initial record; the effects run in declaration order with every callback closing over the first render; per branch the engine, the native source and the `loadedmetadata` count |
| MonolithicPlayer.Setup | hooks/useVideoPlayer.ts:395-510 | needs element, canvas context and URL; attaches the source as the split adapter does, each branch stating engine, native source and `loadedmetadata` count; listens for resizes and starts the frame loop |
| MonolithicPlayer.Teardown | hooks/useVideoPlayer.ts:512-524 | the frame loop stops, the resize and media listeners go and the engine is destroyed |
| MonolithicPlayer.Commit | hooks/useVideoPlayer.ts:528-565 | a commit rebuilds the callbacks whose dependencies changed; a change of `playing` or `isSeeking` removes the registered drag listeners and re-runs the playing effect |
| MonolithicPlayer.TogglePlay | hooks/useVideoPlayer.ts:103-112 | request and hide follow the render in which `playing` last changed |
| MonolithicPlayer.ToggleMute | hooks/useVideoPlayer.ts:132-141 | flips the mute flag of the render in which it last changed |
| MonolithicPlayer.HandleProgressClick | hooks/useVideoPlayer.ts:144-159 | the click handler of the render in which duration or seeking last changed |
| MonolithicPlayer.ToggleFullscreen | hooks/useVideoPlayer.ts:187-201 | the split toggle with the first render's hide |
| MonolithicPlayer.HandlePlaybackRateChange | hooks/useVideoPlayer.ts:228-241 | the split rate change with the first render's hide |
| MonolithicPlayer.HandleQualityChange | hooks/useVideoPlayer.ts:214-225 | with an engine the level and selection change; in every case two menus close and the first render's hide runs |
| MonolithicPlayer.SelectQuality | hooks/useVideoPlayer.ts:217 | only the selection changes |
| MonolithicPlayer.CloseQualityMenus | hooks/useVideoPlayer.ts:219-223 | only the quality menu and settings close |
| MonolithicPlayer.Route | hooks/useVideoPlayer.ts:331-382 | a key is handled here exactly when the split table handles it |
| MonolithicPlayer.RoutesDifferOnlyAtF | hooks/useVideoPlayer.ts:337-340 | the two key tables agree on all keys but `f`, which is fullscreen here and play/pause in the split hook |
| MonolithicPlayer.SeekByKey | hooks/useVideoPlayer.ts:345-362 | state and element position both move to the clamped target from the latest state |
| MonolithicPlayer.VolumeByKey | hooks/useVideoPlayer.ts:363-380 | state and element volume both move to the clamped target; mute is untouched |
| MonolithicPlayer.SeekKey | hooks/useVideoPlayer.ts:345-362 | an ArrowLeft/ArrowRight press moves state and element to the target and reschedules the current render's hide |
| MonolithicPlayer.VolumeKey | hooks/useVideoPlayer.ts:363-380 | an ArrowUp/ArrowDown press moves state and element volume to the target and reschedules the current render's hide |
| MonolithicPlayer.UpPressesAccumulate | hooks/useVideoPlayer.ts:363-370 | `n` ArrowUp presses from `v` reach `min(v + 5n, 100)` |
| MonolithicPlayer.HandleKeyDown | hooks/useVideoPlayer.ts:327-392 | per key (`KeyDownEffect`): togglePlay and toggleMute as their stale closures, `f` as toggleFullscreen with the first render's hide and no effect without the player, arrows on state and element with the current render's hide; unwritten fields unchanged |
| Scenarios.SplitDrag | hooks/player/use-seek-handlers.ts:72-111 | press, any moves, release: the drag ends with both listeners gone, and the position and element are at the last move's target |
| Scenarios.SplitPress | hooks/player/use-seek-handlers.ts:103-111 | the drag listeners survive the commit after the press |
| Scenarios.SplitMoves | hooks/player/use-seek-handlers.ts:72-91 | every move reaches the handler; the last decides the position |
| Scenarios.SplitRelease | hooks/player/use-seek-handlers.ts:93-101 | the release ends the drag and keeps the position |
| Scenarios.MonolithDrag | hooks/useVideoPlayer.ts:559-565 | press, move, release, click: the listeners were removed at the first commit, so the position is unchanged and the player stays seeking |
| Scenarios.MonolithPress | hooks/useVideoPlayer.ts:297-305 | the commit after the press removes the listeners it registered |
| Scenarios.SplitRateChangeThenWait | hooks/player/use-player-controls.ts:70-85 | while playing, a rate change and a 5 s wait hide the controls |
| Scenarios.MonolithRateChangeThenWait | hooks/useVideoPlayer.ts:228-241 | the same in the single-hook variant leaves the controls shown and no hide pending |
| Scenarios.SplitArrowUpTwice | hooks/player/use-keyboard-shortcuts.ts:48-53 | two ArrowUp presses set the element to the same volume, and the state's volume is unchanged |
| Scenarios.ArrowUpFromInitial | hooks/player/use-keyboard-shortcuts.ts:48-53 | from 80 the split presses reach 85, while accumulating presses reach 90 |
| Scenarios.MonolithArrowUp | hooks/useVideoPlayer.ts:363-370 | one press raises the state's volume and mirrors it on the element |
| Scenarios.MonolithArrowUpTwice | hooks/useVideoPlayer.ts:363-370 | two presses accumulate |
| Mappers.ToCamel | lib/mappers.ts:6-7 | `toCamel` never lengthens a key |
| Mappers.ToCamelPlain | lib/mappers.ts:6-7 | a key without `_` is unchanged |
| Mappers.ToCamelPrefix | lib/mappers.ts:6-7 | a prefix without `_` passes through unchanged |
| Mappers.DropUnderscores | lib/mappers.ts:6-7 | the reference: the key with the underscores before letters removed |
| Mappers.SnakeSuffix | lib/mappers.ts:6-7 | a snake key's suffixes are snake keys |
| Mappers.ToCamelSnake | lib/mappers.ts:6-7 | for a snake key the result has no `_`, and lower-cased it equals the key with the underscores dropped |
| Mappers.LowerConcat | lib/mappers.ts:6-7 | lower-casing distributes over concatenation |
| Mappers.OutKey | lib/mappers.ts:72 | the output key is the alias when there is one, else the camel-cased key |
| Mappers.CategoryKey | lib/mappers.ts:33-44 | `category_id` becomes `categoryID` through its alias, not the camel-case `categoryId` |
| Mappers.CreatedAtKey | lib/mappers.ts:72 | `created_at` becomes `createdAt` |
| Mappers.TruncRem | lib/mappers.ts:10-18 | JavaScript's `%`: the remainder takes the dividend's sign |
| Mappers.TruncRemIsRem | lib/mappers.ts:10-18 | on whole numbers it is the same `%` as the real-valued `JsMath.Rem` of the player's clock |
| Mappers.FormatPartsNat | lib/mappers.ts:10-18 | non-negative parts render as `h:mm:ss` or `m:ss` |
| Mappers.FormatDuration | lib/mappers.ts:10-18 | `null` or a value that is not a number renders as `0:00`; a number as its formatted seconds |
| Mappers.HourParts | lib/mappers.ts:12-14 | hours, minutes and seconds recompose the total and stay below 60 |
| Mappers.FormatSecondsNat | lib/mappers.ts:10-18 | non-negative seconds render with hours exactly when there is at least one hour |
| Mappers.FormatSecondsShort | lib/mappers.ts:15-17 | below an hour, `m:ss` reads back as the minutes and seconds |
| Mappers.FormatSecondsLong | lib/mappers.ts:15-17 | from an hour, `h:mm:ss` reads back as the three parts |
| Mappers.FormatDurationMissing | lib/mappers.ts:10-11 | `null` and `0` both render as `0:00` |
| Mappers.FormatDurationNotANumber | lib/mappers.ts:10-11 | a non-numeric string is not a number and renders as `0:00` |
| Mappers.FormatDurationNegative | lib/mappers.ts:12-17 | `-5` renders as `-1:-1:-5` |
| Mappers.Apply | lib/mappers.ts:21-30 | a conversion yields a string; it throws exactly for `toISOString` and for `toString` of `null` |
| Mappers.MapperFor | lib/mappers.ts:64-69 | the custom mapper for a key wins over the built-in one |
| Mappers.Convert | lib/mappers.ts:64-69 | a key without a mapper, or whose mapper throws, keeps its value; otherwise the value is the mapper's result |
| Mappers.MapToFrontend | lib/mappers.ts:46-80 | the loop builds exactly the entry-by-entry result |
| Mappers.MapEntriesKeys | lib/mappers.ts:54-77 | a key is in the result exactly when some admitted entry writes it |
| Mappers.MapEntriesLast | lib/mappers.ts:54-77 | the value under a key is that of the last admitted entry writing it |
| Mappers.MapVideo | lib/mappers.ts:82-103 | the result's keys are the mapped base keys plus the interaction keys |
| Mappers.MapVideoKeepsCreatedAt | lib/mappers.ts:82-103 | `created_at` comes out unchanged as `createdAt` |
| Mappers.MapVideoDropsExcluded | lib/mappers.ts:82-103 | excluded backend fields never reach the result |
| Mappers.MapComment | lib/mappers.ts:106-130 | the author keys, the mapped comment keys and the interaction keys, interaction winning |
| Mappers.AuthorFields | lib/mappers.ts:118-123 | the author mapping keeps only `username` and `avatarUrl` |
| MockApi.SearchSpec | lib/api.ts:167-174 | search keeps exactly the videos whose lower-cased title or description contains the query, in order, with multiplicity |
| MockApi.SearchEmptyQuery | lib/api.ts:167-174 | the empty query returns every video |
| MockApi.CommentsOfSpec | lib/api.ts:186-190 | exactly the comments on that video, in order; an added comment comes last |
| MockApi.Like | lib/api.ts:219-230 | a liked comment is unliked, likes − 1; otherwise liked, likes + 1, and a dislike withdrawn |
| MockApi.Dislike | lib/api.ts:240-251 | the mirror image of `Like` |
| MockApi.ReactionsKeepConsistent | lib/api.ts:219-251 | no negative counts, and never both liked and disliked, before and after each reaction |
| MockApi.DislikeMirrorsLike | lib/api.ts:219-251 | disliking is liking with the two sides swapped |
| MockApi.LikeTwice | lib/api.ts:219-230 | two likes restore a consistent comment exactly when it was not disliked |
| MockApi.ReactionScore | lib/api.ts:219-251 | a reaction moves likes − dislikes by one or two |
| MockApi.FindComment | lib/api.ts:216-237 | `find`: the first comment with that id, or none when no comment has it |
| MockApi.FindChannelVideo | lib/api.ts:178 | the first video of that channel, or none |
| MockApi.SubscribeTargets | lib/api.ts:5-135 | in the mock data each channel's subscription flips that channel's own video |
| MockApi.FindChannelVideoByKey | lib/api.ts:176-178 | `find` with strict equality on the argument as declared |
| MockApi.SubscribeByNumberNeverFinds | lib/api.ts:176-178 | a numeric argument never equals a string id |
| MockApi.SubscribeByStringFinds | lib/api.ts:178 | with a string id the lookup is `FindChannelVideo` |
| MockApi.NewComment | lib/api.ts:197-208 | a new comment on the video with the text, no reactions, consistent |
| MockApi.MockStore.constructor | lib/api.ts:51-163 | the six mock videos and two comments |
| MockApi.MockStore.SearchVideos | lib/api.ts:167-174 | returns the search result and changes nothing |
| MockApi.MockStore.FetchComments | lib/api.ts:186-190 | returns the video's comments and changes nothing |
| MockApi.MockStore.AddComment | lib/api.ts:192-212 | exactly one new comment is appended, the others untouched |
| MockApi.MockStore.LikeComment | lib/api.ts:214-233 | an unknown id throws `Comment not found` and changes nothing; otherwise only the first match is liked, and a copy is returned |
| MockApi.MockStore.DislikeComment | lib/api.ts:235-254 | the same with `Dislike` |
| MockApi.MockStore.SubscribeToChannel | lib/api.ts:176-182 | an unknown channel throws `Channel not found`; otherwise only its first video flips `isSubscribed` |
| AuthSlice.RejectPayload | lib/features/auth-slice.ts:21-40 | the thrown status or 500, the thrown message or the fallback; an empty message is kept |
| AuthSlice.LoginSettled | lib/features/auth-slice.ts:12-26 | success fulfils with the session; failure rejects with the mapped error and `Login failed` as fallback |
| AuthSlice.LogoutSettled | lib/features/auth-slice.ts:33-42 | the same for logout, with `Logout failed` |
| AuthSlice.ReduceKeepsSession | lib/features/auth-slice.ts:43-103 | every action keeps "a user is signed in exactly when a token is held", and so does the initial state |
| AuthSlice.ReduceLoading | lib/features/auth-slice.ts:69-103 | pending actions set loading and clear the error; settled ones clear loading; the plain reducers leave it |
| AuthSlice.RejectionKeepsSession | lib/features/auth-slice.ts:78-103 | a rejection leaves an error, the payload if given, and keeps the user and the token |
| AuthSlice.ClearErrorOnlyError | lib/features/auth-slice.ts:62-64 | `clearError` changes only the error, and twice is once |
| AuthSlice.LoginThenLogout | lib/features/auth-slice.ts:69-96 | a successful login then logout return to the initial state |
| AuthSlice.FailedLogin | lib/features/auth-slice.ts:21-85 | a failed login stores the thrown status and message with defaults and keeps whoever was signed in |
| AuthSlice.AuthStore.constructor | lib/features/auth-slice.ts:43-48 | the initial state: no user, no token, not loading, no error |
| AuthSlice.AuthStore.Dispatch | lib/features/auth-slice.ts:53-103 | the field assignments give `Reduce` of the old state |
| AuthSlice.AuthStore.Login | lib/features/auth-slice.ts:8-26 | the pending action, then the settled one |
| AuthSlice.AuthStore.Logout | lib/features/auth-slice.ts:29-42 | the same for logout |
| LoginForm.FormErrorFor | components/auth/login-form.tsx:36-51 | a message exactly when there is an error, and never an empty one |
| LoginForm.ModeAfterError | components/auth/login-form.tsx:38-41 | signup mode turns on exactly at a 400, else stays |
| LoginForm.ErrorMessages | components/auth/login-form.tsx:38-47 | texts for 400 and 401; the server's message for other statuses, or `An error occurred` if it is empty |
| LoginForm.UsernameMissingIffBlank | components/auth/login-form.tsx:61 | a username is refused exactly when it is all white space |
| LoginForm.SubmitAction | components/auth/login-form.tsx:60-68 | no dispatch exactly in signup mode with a blank username; otherwise login with the username only in signup mode |
| LoginForm.Form.constructor | components/auth/login-form.tsx:28-55 | empty inputs, login mode, no message, and `clearError` dispatched on mount |
| LoginForm.Form.SetInputs | components/auth/login-form.tsx:28-30 | the typed text is stored |
| LoginForm.Form.ErrorEffect | components/auth/login-form.tsx:36-51 | the mode becomes `ModeAfterError` and the message `FormErrorFor` |
| LoginForm.Form.HandleSubmit | components/auth/login-form.tsx:57-69 | a blank signup username sets `Username is required` and dispatches nothing; otherwise one login is dispatched and the message is untouched |
| LoginForm.Form.HandleSwitchMode | components/auth/login-form.tsx:71-75 | flips the mode, clears the message, dispatches `clearError` |
| LoginForm.UnknownAccountFlow | components/auth/login-form.tsx:36-69 | a 400 answer switches the form to signup mode; a blank username then stops the next submit at the form |
| LoginForm.SwitchModeClears | components/auth/login-form.tsx:71-75 | switching mode clears both the form's message and the store's error |

## Left out

- Drawing the video onto the canvas (`hooks/player/use-canvas-renderer.ts`) and the monolith's frame loop: the model keeps only the flag that the loop runs.
- The streaming engine itself (buffering, the network, the level switch algorithm): it enters through `ManifestParsed` and `LevelSwitched`.
- Engine `ERROR` events: they are only logged.
- `play()`'s promise and its rejection: only the request is recorded.
- Floating point: times, rates and volumes are exact reals. `NaN` and `Infinity` durations are not modelled.
- Console logging, and the `delay` of the mock API.
- The anonymous native `loadedmetadata` listener is never removed. Only its count is kept.
- A new `hlsUrl` does not reset the view-model state. The model shows this (`VideoPlayer.ChangeUrl`) but proves nothing about the stale `qualities`.
- The media element starts at volume 1.0 while the state says 80. The model keeps both values and nothing reconciles them.
- A drag in progress at unmount keeps its document listeners. The model keeps them and proves nothing further.
- PlayerControls.HandleVolumeChange: requires an integer in 0..100, the slider's range. `parseInt` of other text is not modelled.
- Mappers.FormatDuration / Mappers.DurationSeconds: numeric strings are read only as plain digit strings. A string with a sign, a decimal point or an exponent, such as `"-5"`, `"1.5"` or `"1e3"`, renders `0:00` here, where `lib/mappers.ts` formats the number it denotes (`-1:-1:-5`, `0:01`, `16:40`).
- Mappers.Apply: dates are not values of the model, so `toISOString` always throws here.
- Prototype keys such as `constructor` in the lookup tables of `lib/mappers.ts` are not modelled.
- The integer-key-first ordering of `Object.entries` is not modelled.
- Custom mappers are limited to the four built-in conversions.
- Fractional numbers are not modelled in `lib/mappers.ts`.
- Case mapping covers ASCII only, in `searchVideos` and `toCamel`.
- `mockChannels` is not used by any modelled operation and is kept only as the list of ids.
- MockApi.MockStore.SearchVideos / MockApi.MockStore.FetchComments / MockApi.MockStore.AddComment: the returned objects are the store's own in `lib/api.ts`, so a later `subscribeToChannel`, `likeComment` or `dislikeComment` changes a result a caller already holds. The model returns values, which never change afterwards. Only `likeComment`, `dislikeComment` and `subscribeToChannel` return copies in the source.
- MockApi.MockStore.SubscribeToChannel: takes the channel id as a string, as the stored ids are. With the declared number argument no video is ever found (see Findings).
- The backend calls of `lib/api/auth.api.ts` are not part of this model and enter as the thunk's outcome.
- Thunk actions dispatched while another is in flight are not modelled, so neither is the order in which they settle.
- LoginForm.Form.ErrorEffect: it runs when the store's error object changes. The model runs it where a scenario says it does.
- The form's rendering (theme classes, titles) and its input handlers beyond storing text are not modelled.

## Findings

| source | as written | input that shows it | evidently intended | confidence | as-written member | corrected member |
|---|---|---|---|---|---|---|
| hooks/player/use-keyboard-shortcuts.ts:48-59 | ArrowUp/ArrowDown compute the new volume from `state.volume` but write only the element's volume, never the state | two ArrowUp presses from the initial 80: the element goes to 0.85 both times (`Scenarios.ArrowUpFromInitial`) | each press goes from the previous volume, 80 → 85 → 90, as the single-hook variant does | not executed; high | Scenarios.SplitArrowUpTwice | Scenarios.MonolithArrowUpTwice |
| hooks/useVideoPlayer.ts:559-565 | the drag-cleanup effect depends on `handleSeekEnd`, which is rebuilt whenever `isSeeking` changes, so the commit after a press removes the listeners it just registered | press on the bar, move, release: the position does not move, `isSeeking` stays true and later clicks on the bar are ignored | listeners that live until the release, as in the split hooks | not executed; medium | Scenarios.MonolithDrag | Scenarios.SplitDrag |
| hooks/useVideoPlayer.ts:228-241 | `handlePlaybackRateChange` (also `toggleFullscreen` and `handleQualityChange`) is memoized with no dependencies, so it calls the first render's `hideControlsAfterDelay`, which saw the video paused | while playing, change the rate and wait five seconds: the controls never hide | the current render's delayed hide, as the split hooks use | not executed; high | Scenarios.MonolithRateChangeThenWait | Scenarios.SplitRateChangeThenWait |
| lib/api.ts:176-178 | `subscribeToChannel` declares `channelId: number` and compares it with `===` to string channel ids | `subscribeToChannel(1)` throws `Channel not found`, as does every number | a string channel id | not executed; medium | MockApi.SubscribeByNumberNeverFinds | MockApi.MockStore.SubscribeToChannel |
