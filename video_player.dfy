/** The video player component: the controller action behind the play
    button, the full-screen toggle, the auto-hiding control panel with its
    one pending hide timer, the draw step that reconciles CSS class lists
    with the player's state, and the two loops that pick a media source. */
module VideoPlayer {

  import opened Wrappers

  /* ---------------------------------------------------------------------
     Values the player reads from its collaborators
     --------------------------------------------------------------------- */

  /** The media controller's status, as far as the player tells statuses
      apart: `Other` stands for every status other than EMPTY, PLAYING and
      PAUSED. */
  datatype Status = Empty | Playing | Paused | Other

  /** The controller calls the play button can issue. */
  datatype ControllerCall = Pause | Unpause | Play

  /** One candidate media source: its `src` and its `type`, either of which
      may be missing (null or undefined). */
  datatype Source = Source(src: Option<string>, mediaType: Option<string>)

  /** JavaScript truthiness of a possibly missing string. */
  predicate Truthy(s: Option<string>) {
    s.Some? && s.value != ""
  }

  /* ---------------------------------------------------------------------
     Source selection
     --------------------------------------------------------------------- */

  /** Which sources a selection loop accepts. The `sources` setter insists on
      a `type` the media element can play; `enterDocument` also takes a
      source that names no type at all. */
  datatype Rule = TypedAndPlayable | UntypedOrPlayable

  predicate Accepts(rule: Rule, s: Source, canPlay: string -> bool) {
    match rule
    case TypedAndPlayable => Truthy(s.mediaType) && canPlay(s.mediaType.value)
    case UntypedOrPlayable => !Truthy(s.mediaType) || canPlay(s.mediaType.value)
  }

  /** The index of the first source at or after `from` that `rule` accepts. */
  function FirstAcceptedFrom(sources: seq<Source>, rule: Rule, canPlay: string -> bool, from: nat): (k: Option<nat>)
    requires from <= |sources|
    ensures k.Some? ==> from <= k.value < |sources| && Accepts(rule, sources[k.value], canPlay)
    ensures k.Some? ==> forall j :: from <= j < k.value ==> !Accepts(rule, sources[j], canPlay)
    ensures k.None? ==> forall j :: from <= j < |sources| ==> !Accepts(rule, sources[j], canPlay)
    decreases |sources| - from
  {
    if from == |sources| then None
    else if Accepts(rule, sources[from], canPlay) then Some(from)
    else FirstAcceptedFrom(sources, rule, canPlay, from + 1)
  }

  function FirstAccepted(sources: seq<Source>, rule: Rule, canPlay: string -> bool): (k: Option<nat>)
    ensures k.Some? ==> k.value < |sources| && Accepts(rule, sources[k.value], canPlay)
    ensures k.Some? ==> forall j :: 0 <= j < k.value ==> !Accepts(rule, sources[j], canPlay)
    ensures k.None? ==> forall j :: 0 <= j < |sources| ==> !Accepts(rule, sources[j], canPlay)
  {
    FirstAcceptedFrom(sources, rule, canPlay, 0)
  }

  /** The `src` a selection loop ends with: the chosen source's, or the one
      it started with when no source is accepted. */
  function ChosenSrc(sources: seq<Source>, rule: Rule, canPlay: string -> bool, current: Option<string>): (r: Option<string>)
  {
    match FirstAccepted(sources, rule, canPlay)
    case Some(k) => sources[k].src
    case None => current
  }

  /** An accepted source with no accepted source before it is the one
      `FirstAccepted` finds. */
  lemma FirstAcceptedUnique(sources: seq<Source>, rule: Rule, canPlay: string -> bool, k: nat)
    requires k < |sources| && Accepts(rule, sources[k], canPlay)
    requires forall j :: 0 <= j < k ==> !Accepts(rule, sources[j], canPlay)
    ensures FirstAccepted(sources, rule, canPlay) == Some(k)
  {
  }

  /** Every source the `sources` setter accepts, `enterDocument` accepts too,
      so `enterDocument` never picks a later entry and never finds none
      where the setter finds one. */
  lemma SetterChoiceBoundsDocumentChoice(sources: seq<Source>, canPlay: string -> bool)
    requires FirstAccepted(sources, TypedAndPlayable, canPlay).Some?
    ensures FirstAccepted(sources, UntypedOrPlayable, canPlay).Some?
    ensures FirstAccepted(sources, UntypedOrPlayable, canPlay).value
         <= FirstAccepted(sources, TypedAndPlayable, canPlay).value
  {
  }

  /** When every source names a type, the two loops pick the same entry. */
  lemma SelectionAgreesOnTypedSources(sources: seq<Source>, canPlay: string -> bool)
    requires forall j :: 0 <= j < |sources| ==> Truthy(sources[j].mediaType)
    ensures FirstAccepted(sources, TypedAndPlayable, canPlay) == FirstAccepted(sources, UntypedOrPlayable, canPlay)
  {
  }

  /** The loops differ exactly on untyped sources: their choices differ if and
      only if the entry `enterDocument` picks names no type. */
  lemma SelectionDiffersIffUntyped(sources: seq<Source>, canPlay: string -> bool)
    ensures FirstAccepted(sources, TypedAndPlayable, canPlay) != FirstAccepted(sources, UntypedOrPlayable, canPlay)
        <==> (var k := FirstAccepted(sources, UntypedOrPlayable, canPlay);
              k.Some? && !Truthy(sources[k.value].mediaType))
  {
    var k := FirstAccepted(sources, UntypedOrPlayable, canPlay);
    if k.Some? && Truthy(sources[k.value].mediaType) {
      FirstAcceptedUnique(sources, TypedAndPlayable, canPlay, k.value);
    }
  }

  /** An untyped entry with nothing acceptable before it is taken by
      `enterDocument` and skipped by the `sources` setter. */
  lemma SelectionDiffersOnUntypedSource(sources: seq<Source>, canPlay: string -> bool, i: nat)
    requires i < |sources| && !Truthy(sources[i].mediaType)
    requires forall j :: 0 <= j < i ==> !Accepts(UntypedOrPlayable, sources[j], canPlay)
    ensures FirstAccepted(sources, UntypedOrPlayable, canPlay) == Some(i)
    ensures FirstAccepted(sources, TypedAndPlayable, canPlay) != Some(i)
  {
    FirstAcceptedUnique(sources, UntypedOrPlayable, canPlay, i);
  }

  /* ---------------------------------------------------------------------
     CSS class reconciliation
     --------------------------------------------------------------------- */

  /** The `classList` of each element the draw step touches. */
  datatype ClassLists = ClassLists(
    playButton: set<string>,
    repeatButton: set<string>,
    controls: set<string>,
    fullScreenPanel: set<string>,
    fullScreenButton: set<string>,
    element: set<string>)

  /** The part of the player's state the class lists render. */
  datatype UiState = UiState(
    status: Status,
    repeat: bool,
    showControls: bool,
    supportsFullScreen: bool,
    isFullScreen: bool)

  /** A class list with `name` added when `on` holds and removed otherwise. */
  function Toggled(classes: set<string>, name: string, on: bool): (r: set<string>)
    ensures name in r <==> on
    ensures r - {name} == classes - {name}
  {
    if on then classes + {name} else classes - {name}
  }

  /** A class list switched to `on` from its opposite `off`. */
  function Switched(classes: set<string>, on: string, off: string): (r: set<string>)
    requires on != off
    ensures on in r && off !in r
    ensures r - {on, off} == classes - {on, off}
  {
    (classes - {off}) + {on}
  }

  /** The class lists after a draw of a player whose status is not EMPTY. */
  function Reconcile(c: ClassLists, u: UiState): (r: ClassLists)
    ensures "playing" in r.playButton <==> u.status == Playing
    ensures "loop" in r.repeatButton <==> u.repeat
    ensures ("show-controls" in r.controls) == u.showControls
    ensures ("hide-controls" in r.controls) == !u.showControls
    ensures ("support-fullscreen" in r.fullScreenPanel) == u.supportsFullScreen
    ensures ("hide-fullscreen" in r.fullScreenPanel) == !u.supportsFullScreen
    ensures u.supportsFullScreen ==> ("enter-fullscreen" in r.fullScreenButton) == !u.isFullScreen
    ensures u.supportsFullScreen ==> ("exit-fullscreen" in r.fullScreenButton) == u.isFullScreen
    ensures !u.supportsFullScreen ==> r.fullScreenButton == c.fullScreenButton
    ensures "fullscreen" in r.element <==> u.supportsFullScreen && u.isFullScreen
    ensures r.playButton - {"playing"} == c.playButton - {"playing"}
    ensures r.repeatButton - {"loop"} == c.repeatButton - {"loop"}
    ensures r.controls - {"show-controls", "hide-controls"} == c.controls - {"show-controls", "hide-controls"}
    ensures r.fullScreenPanel - {"support-fullscreen", "hide-fullscreen"}
         == c.fullScreenPanel - {"support-fullscreen", "hide-fullscreen"}
    ensures r.fullScreenButton - {"enter-fullscreen", "exit-fullscreen"}
         == c.fullScreenButton - {"enter-fullscreen", "exit-fullscreen"}
    ensures r.element - {"fullscreen"} == c.element - {"fullscreen"}
  {
    ClassLists(
      playButton := Toggled(c.playButton, "playing", u.status == Playing),
      repeatButton := Toggled(c.repeatButton, "loop", u.repeat),
      controls :=
        if u.showControls then Switched(c.controls, "show-controls", "hide-controls")
        else Switched(c.controls, "hide-controls", "show-controls"),
      fullScreenPanel :=
        if u.supportsFullScreen then Switched(c.fullScreenPanel, "support-fullscreen", "hide-fullscreen")
        else Switched(c.fullScreenPanel, "hide-fullscreen", "support-fullscreen"),
      fullScreenButton :=
        if !u.supportsFullScreen then c.fullScreenButton
        else if u.isFullScreen then Switched(c.fullScreenButton, "exit-fullscreen", "enter-fullscreen")
        else Switched(c.fullScreenButton, "enter-fullscreen", "exit-fullscreen"),
      element := Toggled(c.element, "fullscreen", u.supportsFullScreen && u.isFullScreen))
  }

  /** Drawing twice in the same state changes nothing the first draw did not. */
  lemma ReconcileIdempotent(c: ClassLists, u: UiState)
    ensures Reconcile(Reconcile(c, u), u) == Reconcile(c, u)
  {
  }

  /* ---------------------------------------------------------------------
     The player
     --------------------------------------------------------------------- */

  class Player {
    // State of the attached media controller, read by the player.
    var status: Status
    var repeat: bool
    var volume: int
    var hasController: bool

    // The player's own state.
    var supportsFullScreen: bool
    var isFullScreen: bool
    var showControls: bool
    var hideControlsId: Option<nat>
    var needsDraw: bool
    var src: Option<string>
    var sources: seq<Source>

    // The browser's pending hide timers for this player and the next id it hands out.
    var pendingTimers: set<nat>
    var nextTimerId: nat

    // The media element: the src it was last loaded with and how often it was loaded.
    var mediaSrc: Option<string>
    var loads: nat

    // The class lists of the template's elements, and the volume bar's
    // width in percent (`None` when the template has no volume bar).
    var playButtonClasses: set<string>
    var repeatButtonClasses: set<string>
    var controlsClasses: set<string>
    var fullScreenPanelClasses: set<string>
    var fullScreenButtonClasses: set<string>
    var elementClasses: set<string>
    var volumeWidth: Option<int>

    /** At most one hide timer is pending, and it is the one the player
        remembers; timer ids are positive, as the browser hands them out. */
    ghost predicate Valid()
      reads this
    {
      && nextTimerId >= 1
      && pendingTimers == (if hideControlsId.Some? then {hideControlsId.value} else {})
      && (hideControlsId.Some? ==> 0 < hideControlsId.value < nextTimerId)
    }

    function Classes(): (c: ClassLists)
      reads this
    {
      ClassLists(playButtonClasses, repeatButtonClasses, controlsClasses,
                 fullScreenPanelClasses, fullScreenButtonClasses, elementClasses)
    }

    function Ui(): (u: UiState)
      reads this
    {
      UiState(status, repeat, showControls, supportsFullScreen, isFullScreen)
    }

    /** A player with the component's defaults, bound to a controller in the
        given state, over a template with or without a volume bar. */
    constructor (status: Status, repeat: bool, volume: int, hasVolumeLevel: bool)
      ensures Valid()
      ensures this.status == status && this.repeat == repeat && this.volume == volume
      ensures supportsFullScreen && !isFullScreen && showControls && !needsDraw
      ensures hideControlsId.None? && pendingTimers == {}
      ensures src.None? && sources == [] && mediaSrc.None? && loads == 0 && !hasController
      ensures Classes() == ClassLists({}, {}, {}, {}, {}, {})
      ensures volumeWidth.Some? == hasVolumeLevel
    {
      this.status, this.repeat, this.volume := status, repeat, volume;
      hasController := false;
      supportsFullScreen, isFullScreen, showControls := true, false, true;
      hideControlsId, needsDraw := None, false;
      src, sources := None, [];
      pendingTimers, nextTimerId := {}, 1;
      mediaSrc, loads := None, 0;
      playButtonClasses, repeatButtonClasses, controlsClasses := {}, {}, {};
      fullScreenPanelClasses, fullScreenButtonClasses, elementClasses := {}, {}, {};
      volumeWidth := if hasVolumeLevel then Some(0) else None;
    }

    /** The play button issues exactly one controller call, chosen by the
        controller's status. */
    method HandlePlayButtonAction() returns (call: ControllerCall)
      requires hasController
      ensures call == Pause <==> status == Playing
      ensures call == Unpause <==> status == Paused
      ensures call == Play <==> status != Playing && status != Paused
    {
      if status == Playing {
        call := Pause;
      } else if status == Paused {
        call := Unpause;
      } else {
        call := Play;
      }
    }

    /** A media state change only asks for a redraw. */
    method HandleMediaStateChange()
      modifies this`needsDraw
      ensures needsDraw
    {
      needsDraw := true;
    }

    /** `window.setTimeout` for the hide callback: a fresh id, now pending. */
    method SetHideTimeout() returns (id: nat)
      requires forall x :: x in pendingTimers ==> x < nextTimerId
      modifies this`pendingTimers, this`nextTimerId
      ensures id == old(nextTimerId) && nextTimerId == id + 1
      ensures id !in old(pendingTimers)
      ensures pendingTimers == old(pendingTimers) + {id}
    {
      id := nextTimerId;
      nextTimerId := nextTimerId + 1;
      pendingTimers := pendingTimers + {id};
    }

    /** `window.clearTimeout`: the timer will no longer fire. */
    method ClearTimeout(id: nat)
      modifies this`pendingTimers
      ensures pendingTimers == old(pendingTimers) - {id}
    {
      pendingTimers := pendingTimers - {id};
    }

    /** Shows the controls and (re)arms the one timer that hides them,
        cancelling the timer armed before, if any. */
    method ShowControlsForInterval()
      requires Valid()
      modifies this`showControls, this`needsDraw, this`hideControlsId, this`pendingTimers, this`nextTimerId
      ensures Valid()
      ensures showControls && needsDraw
      ensures hideControlsId == Some(old(nextTimerId)) && pendingTimers == {old(nextTimerId)}
      ensures old(hideControlsId).Some? ==> old(hideControlsId).value !in pendingTimers
    {
      showControls := true;
      needsDraw := true;
      if hideControlsId.Some? && hideControlsId.value != 0 {
        ClearTimeout(hideControlsId.value);
      }
      var id := SetHideTimeout();
      hideControlsId := Some(id);
    }

    /** The browser firing a pending hide timer: the hide callback runs. */
    method FireHide(id: nat)
      requires Valid() && id in pendingTimers
      modifies this`showControls, this`needsDraw, this`hideControlsId, this`pendingTimers
      ensures Valid()
      ensures old(hideControlsId) == Some(id)
      ensures !showControls && hideControlsId.None? && needsDraw && pendingTimers == {}
    {
      pendingTimers := pendingTimers - {id};
      showControls := false;
      hideControlsId := None;
      needsDraw := true;
    }

    /** Flips full-screen mode when it is supported; otherwise does nothing. */
    method ToggleFullScreen()
      modifies this`isFullScreen, this`needsDraw
      ensures supportsFullScreen ==> isFullScreen == !old(isFullScreen) && needsDraw
      ensures !supportsFullScreen ==> isFullScreen == old(isFullScreen) && needsDraw == old(needsDraw)
    {
      if supportsFullScreen {
        isFullScreen := !isFullScreen;
        needsDraw := true;
      }
    }

    /** Toggling full screen twice restores the mode. */
    method ToggleFullScreenTwice()
      modifies this`isFullScreen, this`needsDraw
      ensures isFullScreen == old(isFullScreen)
    {
      ToggleFullScreen();
      ToggleFullScreen();
    }

    /** Points the media element at `src` and loads it. */
    method LoadMedia()
      modifies this`mediaSrc, this`loads
      ensures mediaSrc == src && loads == old(loads) + 1
    {
      mediaSrc := src;
      loads := loads + 1;
    }

    /** The play button carries `playing` exactly while the media plays. */
    method DrawPlayButton()
      modifies this`playButtonClasses
      ensures playButtonClasses == Toggled(old(playButtonClasses), "playing", status == Playing)
    {
      if status == Playing {
        if "playing" !in playButtonClasses {
          playButtonClasses := playButtonClasses + {"playing"};
        }
      } else {
        if "playing" in playButtonClasses {
          playButtonClasses := playButtonClasses - {"playing"};
        }
      }
    }

    /** The repeat button carries `loop` exactly while the controller repeats. */
    method DrawRepeatButton()
      modifies this`repeatButtonClasses
      ensures repeatButtonClasses == Toggled(old(repeatButtonClasses), "loop", repeat)
    {
      if repeat {
        if "loop" !in repeatButtonClasses {
          repeatButtonClasses := repeatButtonClasses + {"loop"};
        }
      } else {
        if "loop" in repeatButtonClasses {
          repeatButtonClasses := repeatButtonClasses - {"loop"};
        }
      }
    }

    /** The control panel is marked shown or hidden, never both. */
    method DrawControls()
      modifies this`controlsClasses
      ensures controlsClasses == Reconcile(old(Classes()), Ui()).controls
    {
      if showControls {
        controlsClasses := controlsClasses - {"hide-controls"};
        controlsClasses := controlsClasses + {"show-controls"};
      } else {
        controlsClasses := controlsClasses - {"show-controls"};
        controlsClasses := controlsClasses + {"hide-controls"};
      }
    }

    /** The full-screen panel, button and the player's own element follow
        whether full screen is supported and whether it is on. */
    method DrawFullScreen()
      modifies this`fullScreenPanelClasses, this`fullScreenButtonClasses, this`elementClasses
      ensures fullScreenPanelClasses == Reconcile(old(Classes()), Ui()).fullScreenPanel
      ensures fullScreenButtonClasses == Reconcile(old(Classes()), Ui()).fullScreenButton
      ensures elementClasses == Reconcile(old(Classes()), Ui()).element
    {
      if supportsFullScreen {
        fullScreenPanelClasses := fullScreenPanelClasses + {"support-fullscreen"};
        fullScreenPanelClasses := fullScreenPanelClasses - {"hide-fullscreen"};
        if !isFullScreen {
          fullScreenButtonClasses := fullScreenButtonClasses + {"enter-fullscreen"};
          fullScreenButtonClasses := fullScreenButtonClasses - {"exit-fullscreen"};
          elementClasses := elementClasses - {"fullscreen"};
        } else {
          fullScreenButtonClasses := fullScreenButtonClasses + {"exit-fullscreen"};
          fullScreenButtonClasses := fullScreenButtonClasses - {"enter-fullscreen"};
          elementClasses := elementClasses + {"fullscreen"};
        }
      } else {
        fullScreenPanelClasses := fullScreenPanelClasses - {"support-fullscreen"};
        fullScreenPanelClasses := fullScreenPanelClasses + {"hide-fullscreen"};
        elementClasses := elementClasses - {"fullscreen"};
      }
    }

    /** The draw step: with no media yet it only loads; otherwise it brings
        every class list in line with the state, leaving other classes be. */
    method Draw()
      requires hasController
      modifies this`mediaSrc, this`loads, this`volumeWidth
      modifies this`playButtonClasses, this`repeatButtonClasses, this`controlsClasses
      modifies this`fullScreenPanelClasses, this`fullScreenButtonClasses, this`elementClasses
      ensures status == Empty ==> Classes() == old(Classes()) && volumeWidth == old(volumeWidth)
      ensures status == Empty ==> mediaSrc == src && loads == old(loads) + 1
      ensures status != Empty ==> Classes() == Reconcile(old(Classes()), Ui())
      ensures status != Empty ==> volumeWidth == (if old(volumeWidth).Some? then Some(volume) else None)
      ensures status != Empty ==> mediaSrc == old(mediaSrc) && loads == old(loads)
    {
      if status == Empty {
        LoadMedia();
      } else {
        DrawPlayButton();
        if volumeWidth.Some? {
          volumeWidth := Some(volume);
        }
        DrawRepeatButton();
        DrawControls();
        DrawFullScreen();
      }
    }

    /** The `sources` setter: a non-empty list is stored, and `src` becomes
        the first entry with a playable `type`, or stays as it was. */
    method SetSources(list: seq<Source>, canPlay: string -> bool)
      modifies this`src, this`sources
      ensures |list| == 0 ==> src == old(src) && sources == old(sources)
      ensures |list| > 0 ==> sources == list
      ensures |list| > 0 ==> src == ChosenSrc(list, TypedAndPlayable, canPlay, old(src))
    {
      if |list| > 0 {
        var i := 0;
        while i < |list|
          invariant 0 <= i <= |list|
          invariant src == old(src)
          invariant forall j :: 0 <= j < i ==> !Accepts(TypedAndPlayable, list[j], canPlay)
        {
          var mediaSrc, mediaType := list[i].src, list[i].mediaType;
          if Truthy(mediaType) && canPlay(mediaType.value) {
            FirstAcceptedUnique(list, TypedAndPlayable, canPlay, i);
            src := mediaSrc;
            break;
          }
          i := i + 1;
        }
        sources := list;
      }
    }

    /** The `sources` getter as written: it ignores what the setter stored. */
    function SourcesAsWritten(): (r: seq<Source>)
      reads this
      ensures r == []
    {
      []
    }

    /** The `sources` getter as evidently intended: the stored list. */
    function Sources(): (r: seq<Source>)
      reads this
      ensures r == sources
    {
      sources
    }

    /** As written, reading `sources` back after setting a non-empty list
        does not give that list. */
    method SourcesAsWrittenLosesSetting(list: seq<Source>, canPlay: string -> bool)
      requires |list| > 0
      modifies this`src, this`sources
      ensures SourcesAsWritten() != list
    {
      SetSources(list, canPlay);
    }

    /** With the intended getter, a non-empty list set is the list read back. */
    method SourcesRoundTrip(list: seq<Source>, canPlay: string -> bool)
      requires |list| > 0
      modifies this`src, this`sources
      ensures Sources() == list
    {
      SetSources(list, canPlay);
    }

    /** Entering the document the first time: the original element's own
        `src` attribute wins; otherwise `src` becomes the first `<source>`
        child that names no type or a playable one. A controller is created
        when there is none. */
    method EnterDocument(firstTime: bool, srcAttribute: Option<string>, children: seq<Source>,
                         canPlay: string -> bool)
      modifies this`src, this`hasController
      ensures !firstTime ==> src == old(src) && hasController == old(hasController)
      ensures firstTime && Truthy(srcAttribute) ==> src == srcAttribute
      ensures firstTime && !Truthy(srcAttribute) ==>
                src == ChosenSrc(children, UntypedOrPlayable, canPlay, old(src))
      ensures firstTime ==> hasController
    {
      if firstTime {
        if Truthy(srcAttribute) {
          src := srcAttribute;
        } else {
          var i := 0;
          while i < |children|
            invariant 0 <= i <= |children|
            invariant src == old(src)
            invariant forall j :: 0 <= j < i ==> !Accepts(UntypedOrPlayable, children[j], canPlay)
          {
            var mediaSrc, mediaType := children[i].src, children[i].mediaType;
            if Truthy(mediaType) && !canPlay(mediaType.value) {
              i := i + 1;
              continue;
            }
            FirstAcceptedUnique(children, UntypedOrPlayable, canPlay, i);
            src := mediaSrc;
            break;
          }
        }
        if !hasController {
          hasController := true;
        }
      }
    }
  }

}
