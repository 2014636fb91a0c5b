# Video player: a Dafny model

This project models the core of the video player widget in
`ui/video-player.reel/video-player.js`. It has two parts.

- **`PrettyTimeConverter`** (module `PrettyTime`) turns a count of seconds into
  `MM:SS`, or into `H:MM:SS` once there is at least one whole hour. It is
  modelled as pure functions. The lemmas say what the output looks like and
  that its fields read back as `hour * 3600 + min * 60 + sec` give the input.
- **`VideoPlayer`** (module `VideoPlayer`) is the component. It is a class
  `Player` whose methods update its fields as the source does:
  - the controller call behind the play button;
  - the full-screen toggle;
  - the auto-hiding control panel with its single pending hide timer;
  - the draw step that reconciles each element's CSS class list with the state;
  - the two loops that choose a media source.

  Pure functions specify the class reconciliation (`Reconcile`) and the source
  choice (`FirstAccepted`, `ChosenSrc`). The lemmas about them give
  idempotence and the exact difference between the two selection loops.

Modelling conventions:
- `parseInt(time, 10)` is the converter's input, given as `Option<int>`.
  `None` stands for NaN.
- Nullable strings are `Option<string>`. JavaScript truthiness is written out
  as `Truthy`: present and non-empty.
- `canPlayType` belongs to the browser. It is a parameter `canPlay: string -> bool`.
  The `sources` setter asks a freshly created `<video>` element, and
  `enterDocument` asks the original element. The lemmas that compare the two
  loops pass the same `canPlay` to both, so they assume both elements answer
  `canPlayType` alike.
- The controller's `status`, `repeat` and `volume` are fields of `Player`.
  `hasController` records whether a controller is attached. The source
  dereferences the controller in the play-button handler and in `draw`, which
  throw while there is none, so those two methods require `hasController`.
  `Status.Other` stands for every status other than EMPTY, PLAYING and PAUSED.
- `window.setTimeout`/`clearTimeout` become the player's `pendingTimers` set
  and `nextTimerId` counter. Timer ids are positive, as browsers hand them out.
  `FireHide` is the browser running the hide callback.
- Each element's `classList` is a `set<string>` field.

## Model

| member | source | states |
|---|---|---|
| PrettyTime.Convert | ui/video-player.reel/video-player.js:18-29 | the result is the empty string exactly when parsing gives NaN or the count is negative, so every count `t >= 0` gives a non-empty string |
| PrettyTime.DecimalDigits | ui/video-player.reel/video-player.js:28 | the hour field is a non-empty digit string with no leading zero whose decimal value is the hour count; it is a single digit exactly below ten |
| PrettyTime.Pad2 | ui/video-player.reel/video-player.js:28 | a minute or second value below 60 becomes exactly two digits (zero-padded below ten) that read back as that value |
| PrettyTime.ConvertFields | ui/video-player.reel/video-player.js:25-28 | the output splits on `:` into two fields below one hour (total length 5) and three fields from one hour on; the minute and second fields are two digits valued `(t/60)%60` and `t%60`; the hour field has no leading zero and is valued `t/3600` |
| PrettyTime.ConvertRoundTrip | ui/video-player.reel/video-player.js:25-28 | reading the fields of the output back as `hour*3600 + min*60 + sec` yields `t` for every `t >= 0` |
| PrettyTime.ConvertInjective | ui/video-player.reel/video-player.js:25-28 | distinct non-negative counts give distinct strings |
| PrettyTime.Revert | ui/video-player.reel/video-player.js:31-35 | `revert` returns its argument unchanged |
| VideoPlayer.FirstAccepted | ui/video-player.reel/video-player.js:182-189 | the chosen index is in range and accepted by the rule, and no earlier entry is; no index means no entry is accepted |
| VideoPlayer.FirstAcceptedFrom | ui/video-player.reel/video-player.js:456-464 | the same first-accepted search, counted from a starting index |
| VideoPlayer.SetterChoiceBoundsDocumentChoice | ui/video-player.reel/video-player.js:456-464 | whenever the `sources` setter finds a source, `enterDocument` finds one too, at the same index or earlier |
| VideoPlayer.SelectionAgreesOnTypedSources | ui/video-player.reel/video-player.js:456-464 | when every source names a type, the two loops choose the same entry |
| VideoPlayer.SelectionDiffersIffUntyped | ui/video-player.reel/video-player.js:456-464 | the two loops choose differently if and only if the entry `enterDocument` chooses names no truthy type |
| VideoPlayer.SelectionDiffersOnUntypedSource | ui/video-player.reel/video-player.js:456-464 | for any list, an entry that names no truthy type and has no entry before it that `enterDocument` accepts is the one `enterDocument` chooses, and the `sources` setter does not choose it |
| VideoPlayer.Toggled | ui/video-player.reel/video-player.js:509-532 | the class is present exactly when the condition holds, and every other class is kept |
| VideoPlayer.Switched | ui/video-player.reel/video-player.js:534-540 | after switching, the `on` class is present and its opposite is absent; every other class is kept |
| VideoPlayer.Reconcile | ui/video-player.reel/video-player.js:501-561 | after a draw with media: the play button has `playing` iff the status is PLAYING; the repeat button has `loop` iff `repeat`; the controls have exactly one of `show-controls`/`hide-controls`, matching `showControls`; the panel has `support-fullscreen` or `hide-fullscreen` by support; the button has `enter-`/`exit-fullscreen` by mode when supported and is untouched otherwise; the element has `fullscreen` iff supported and on; no other class changes |
| VideoPlayer.ReconcileIdempotent | ui/video-player.reel/video-player.js:501-561 | drawing twice in the same state gives the same class lists as drawing once |
| VideoPlayer.Player.constructor | ui/video-player.reel/video-player.js:149-328 | the component's defaults: no `src` (:149-151), full screen supported (:287) and off (:292), controls shown (:319-321), no hide timer (:326-328); `needsDraw` starts false, a default of the component framework, which is not part of this model |
| VideoPlayer.Player.HandlePlayButtonAction | ui/video-player.reel/video-player.js:218-228 | with a controller attached, exactly one controller call is issued: `pause` iff PLAYING, `unpause` iff PAUSED, `play` otherwise |
| VideoPlayer.Player.HandleMediaStateChange | ui/video-player.reel/video-player.js:307-311 | a media state change requests a redraw |
| VideoPlayer.Player.SetHideTimeout | ui/video-player.reel/video-player.js:368 | when every pending id is below the counter, scheduling the hide callback yields the counter's next id, which was not pending before and is pending now |
| VideoPlayer.Player.ClearTimeout | ui/video-player.reel/video-player.js:365-367 | a cleared timer is no longer pending |
| VideoPlayer.Player.ShowControlsForInterval | ui/video-player.reel/video-player.js:353-370 | the controls are shown and a redraw requested; exactly one hide timer is pending afterwards, the new one, and any earlier one is cancelled; the one-timer invariant is kept |
| VideoPlayer.Player.FireHide | ui/video-player.reel/video-player.js:359-363 | only the remembered timer can fire; firing it hides the controls, forgets the timer id and requests a redraw, leaving no timer pending |
| VideoPlayer.Player.ToggleFullScreen | ui/video-player.reel/video-player.js:401-421 | when full screen is supported the mode flips and a redraw is requested; otherwise neither field changes |
| VideoPlayer.Player.ToggleFullScreenTwice | ui/video-player.reel/video-player.js:401-421 | toggling twice restores the full-screen mode |
| VideoPlayer.Player.LoadMedia | ui/video-player.reel/video-player.js:376-384 | the media element gets the player's `src` and is loaded once more |
| VideoPlayer.Player.DrawPlayButton | ui/video-player.reel/video-player.js:509-517 | the play button's classes become the old ones with `playing` present iff the status is PLAYING |
| VideoPlayer.Player.DrawRepeatButton | ui/video-player.reel/video-player.js:524-532 | the repeat button's classes become the old ones with `loop` present iff `repeat` |
| VideoPlayer.Player.DrawControls | ui/video-player.reel/video-player.js:534-540 | the controls' classes are those `Reconcile` dictates |
| VideoPlayer.Player.DrawFullScreen | ui/video-player.reel/video-player.js:542-558 | the panel, button and element classes are those `Reconcile` dictates |
| VideoPlayer.Player.Draw | ui/video-player.reel/video-player.js:501-561 | with a controller attached: with status EMPTY it only loads the media and changes no class list; otherwise every class list becomes `Reconcile` of the old lists and the state, and the volume bar, if there is one, takes the volume as its width |
| VideoPlayer.Player.SetSources | ui/video-player.reel/video-player.js:175-193 | a non-empty list is stored, and `src` becomes the `src` of its first entry with a truthy, playable `type`, or is left unchanged if there is none; an empty list changes nothing |
| VideoPlayer.Player.SourcesAsWritten | ui/video-player.reel/video-player.js:176-178 | the `sources` getter as written returns an empty list whatever the setter stored |
| VideoPlayer.Player.Sources | ui/video-player.reel/video-player.js:168-170 | the `sources` getter as evidently intended returns the stored `_sources` list |
| VideoPlayer.Player.SourcesAsWrittenLosesSetting | ui/video-player.reel/video-player.js:176-178 | with the getter as written, a non-empty list that was set does not read back |
| VideoPlayer.Player.SourcesRoundTrip | ui/video-player.reel/video-player.js:190 | with the intended getter, a non-empty list that was set reads back unchanged |
| VideoPlayer.Player.EnterDocument | ui/video-player.reel/video-player.js:446-496 | on first entry, a truthy `src` attribute wins; otherwise `src` becomes that of the first `<source>` child that names no type or a playable one, or stays as it was; a controller then exists; later entries change nothing |

## Findings

| source | as written | input that shows it | evidently intended | confidence | as-written member | corrected member |
|---|---|---|---|---|---|---|
| ui/video-player.reel/video-player.js:176-178 | the `sources` getter returns a fresh empty array and ignores `_sources`, which the setter stores | set `sources` to any non-empty list, then read `sources`: the result is `[]` | return the stored `_sources`, as the `src` and `posterSrc` getters return their fields | medium, not executed | VideoPlayer.Player.SourcesAsWrittenLosesSetting | VideoPlayer.Player.SourcesRoundTrip |

## Left out

- `<track>` cloning, `textTracks` mode and `style.paddingBottom` in `enterDocument` (:467-481, :491-493) are DOM manipulation with no state the model keeps.
- `_installUserActionDetector` and `_installMediaEventListeners` (:426-442) register DOM event listeners. They depend on `window.touch` and `autoHide` and change no modelled state.
- The `controller` setter (:136-143) and wiring `mediaElement.controller` are left out. `EnterDocument` records only that a controller exists afterwards.
- `webkitEnterFullScreen` and the other vendor full-screen calls (:405-417) are browser calls. They have no modelled effect.
- `rewind`, `fastForward`, `volumeDecrease`, `volumeIncrease` and `toggleMute` (:230-258) only forward to the media controller, whose source is not part of this model. So do `pause`, `unpause` and `play`; `HandlePlayButtonAction` returns which of those three it calls.
- `handleRepeatButtonAction` (:260-264) has an empty body.
- `handleMouseup`, `handleTouchend` and `handleFullScreenButtonAction` (:266-270, :334-348) only call `showControlsForInterval` or `toggleFullScreen`, which are modelled.
- `showPoster`, `posterSrc` and `templateDidLoad` (:198-212, :294-300, :389-395) are poster plumbing and logging.
- `CONTROL_SHOW_TIME` (:51) sets the delay of the hide timer. The model has no clock: a pending timer fires whenever `FireHide` is called.
- Player.Draw: the volume is an integer, so `Math.floor` on a floating-point volume (:520) is not modelled.
- PrettyTime.Convert: general `parseInt` on strings and fractional numbers is not modelled; the input is already the parsed integer or NaN.
- PrettyTime.Convert: JavaScript numbers are IEEE doubles, while the model uses exact integers. Above 2^53 the source's arithmetic rounds, and it prints an hour by its shortest round-trip digits (`String(2**64)` is `18446744073709552000`). It switches to exponent notation from 10^21. The model prints the exact hour count, so at such counts its output and round trip differ from the source's.
- Player.HandlePlayButtonAction and Player.Draw: the TypeError the source throws without a controller is not modelled as an error path; both methods require `hasController` instead.
- Player.SetSources: a `null` list and an empty list are both the empty sequence. The setter treats both alike.
- The list widget's test harness (`test/list/list-spec.js`) drives scroller code that is not part of this model.
