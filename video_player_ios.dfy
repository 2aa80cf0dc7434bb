/** The iOS video player. It shares the controls and their timer with the Android
    player, but it has no first-play rewind, learns that playback ended from the
    media element's seek report, follows the silent switch, and hands fullscreen to
    the native fullscreen player, whose playback-rate reports then drive `paused`. */
module VideoPlayerIos {
  import opened PlayerControls

  /** The `videoSize` field, which this player never updates. */
  const DefaultVideoSize: Size := Size(1920.0, 1080.0)

  /** The player's state: `screenWidth` is `SCREEN_WIDTH`, `box` the `width`/`height`
      state, `timer` the `controlTimer` field with the timeouts it refers to, and
      `seeks` every `player.current.seek` target, oldest first. */
  datatype State = State(
    screenWidth: real,
    box: Size,
    paused: bool,
    showControls: bool,
    muted: bool,
    currentTime: real,
    duration: real,
    loading: bool,
    videoEnded: bool,
    fullscreen: bool,
    silentSwitch: bool,
    hardwareSilent: bool,
    timer: Timer,
    seeks: seq<real>)

  /** The state the class's field initialisers set up: paused on the poster, loading,
      controls hidden, silent switch off, no timer and nothing sent to the media element. */
  function Initial(screenWidth: real): (r: State)
    ensures Inv(r)
    ensures r.paused && r.videoEnded && r.loading && !r.showControls && !r.silentSwitch
    ensures r.timer.pending == {} && r.timer.handle == 0 && r.seeks == []
  {
    State(screenWidth, Size(screenWidth, 180.0),
          true, false, false, 0.0, 0.0, true, true, false, false, false, NoTimer, [])
  }

  ghost predicate Inv(s: State) {
    TimerValid(s.timer)
  }

  /** What the media element receives as its `muted` prop: a silenced device always
      mutes the player, otherwise the sound button decides. */
  predicate EffectiveMute(s: State)
    ensures s.hardwareSilent ==> EffectiveMute(s)
    ensures !s.hardwareSilent ==> (EffectiveMute(s) <==> s.muted)
  {
    s.muted || s.hardwareSilent
  }

  /** Everything that reaches the player: lifecycle calls, platform reports, media
      events, button presses, the seek bar's callbacks, and the moment a pending
      5000 ms `hideControls` timeout comes due (other events, such as progress
      reports, may arrive in between without delaying it). */
  datatype Event =
    | DidMount
    | SilentSwitchChanged(on: bool)
    | VolumeChanged(volume: real)
    | Load(naturalSize: Size, duration: real)
    | End
    | Progress(currentTime: real)
    | PlaybackRateChange(playbackRate: real)
    | Seeked(seekTime: real)
    | PressPlay
    | PressToggleSound
    | PressBack15
    | PressTogglePause
    | PressForward15
    | PressFullScreen
    | FullscreenDismissed
    | HideTimerElapsed
    | SeekStart
    | SeekEnd(time: real)
    | PressVideo
    | WillUnmount

  /** A loaded video has a non-zero natural width. */
  predicate Admissible(e: Event) {
    e.Load? ==> e.naturalSize.width != 0.0
  }

  /** The effect of one event on the player. */
  function Step(s: State, e: Event): (r: State)
    requires Inv(s) && Admissible(e)
    ensures Inv(r)
  {
    match e
    case DidMount => s.(box := PortraitBox(DefaultVideoSize, s.screenWidth))
    case SilentSwitchChanged(on) => s.(silentSwitch := on, muted := on)
    case VolumeChanged(v) => s.(hardwareSilent := v == 0.0, muted := v == 0.0)
    case Load(n, d) =>
      s.(box := PortraitBox(n, s.screenWidth), duration := d, loading := false, paused := true)
    case End => s.(seeks := s.seeks + [0.0])
    case Progress(t) => s.(currentTime := t)
    case PlaybackRateChange(rate) => if s.fullscreen then s.(paused := rate == 0.0) else s
    case Seeked(t) => if t == 0.0 then s.(paused := true, videoEnded := true) else s
    case PressPlay => s.(paused := false, videoEnded := false)
    case PressToggleSound =>
      s.(muted := if s.hardwareSilent then s.muted else !s.muted, timer := TimerRestart(s.timer))
    case PressBack15 =>
      s.(seeks := s.seeks + [SkipTarget(s.currentTime, s.duration, -SkipSeconds)],
         timer := TimerRestart(s.timer))
    case PressTogglePause => s.(paused := !s.paused, timer := TimerRestart(s.timer))
    case PressForward15 =>
      s.(seeks := s.seeks + [SkipTarget(s.currentTime, s.duration, SkipSeconds)],
         timer := TimerRestart(s.timer))
    case PressFullScreen => s.(fullscreen := true)
    case FullscreenDismissed => s.(fullscreen := false)
    case HideTimerElapsed =>
      if s.timer.pending != {} then s.(showControls := false, timer := TimerElapse(s.timer)) else s
    case SeekStart => s.(timer := TimerClear(s.timer))
    case SeekEnd(t) => s.(timer := TimerRestart(s.timer), seeks := s.seeks + [t])
    case PressVideo =>
      if s.showControls then s.(showControls := false)
      else s.(showControls := true, timer := TimerRestart(s.timer))
    case WillUnmount => s.(timer := TimerDispose(s.timer), paused := true)
  }

  predicate AllAdmissible(es: seq<Event>) {
    forall i | 0 <= i < |es| :: Admissible(es[i])
  }

  lemma AllAdmissibleTail(es: seq<Event>)
    requires es != [] && AllAdmissible(es)
    ensures Admissible(es[0]) && AllAdmissible(es[1..])
  {
    forall i | 0 <= i < |es[1..]| ensures Admissible(es[1..][i]) {
      assert es[1..][i] == es[i + 1];
    }
  }

  /** The player after a sequence of events. */
  function Run(s: State, es: seq<Event>): (r: State)
    requires Inv(s) && AllAdmissible(es)
    ensures Inv(r)
    decreases |es|
  {
    if es == [] then s
    else
      AllAdmissibleTail(es);
      Run(Step(s, es[0]), es[1..])
  }

  /** However the events interleave, at most one `hideControls` is ever pending. */
  lemma AtMostOneHidePending(s: State, es: seq<Event>)
    requires Inv(s) && AllAdmissible(es)
    ensures |Run(s, es).timer.pending| <= 1
  {
    AtMostOnePending(Run(s, es).timer);
  }

  /** The events that send a seek command. */
  predicate Seeks(e: Event) {
    e.End? || e.PressBack15? || e.PressForward15? || e.SeekEnd?
  }

  function CountSeeks(es: seq<Event>): nat {
    if es == [] then 0 else (if Seeks(es[0]) then 1 else 0) + CountSeeks(es[1..])
  }

  /** One event appends one seek command if it seeks, and none otherwise. */
  lemma StepSeeks(s: State, e: Event)
    requires Inv(s) && Admissible(e)
    ensures |Step(s, e).seeks| == |s.seeks| + (if Seeks(e) then 1 else 0)
    ensures Step(s, e).seeks[..|s.seeks|] == s.seeks
  {
    match e
    case DidMount =>
    case SilentSwitchChanged(_) =>
    case VolumeChanged(_) =>
    case Load(_, _) =>
    case End =>
    case Progress(_) =>
    case PlaybackRateChange(_) =>
    case Seeked(_) =>
    case PressPlay =>
    case PressToggleSound =>
    case PressBack15 =>
    case PressTogglePause =>
    case PressForward15 =>
    case PressFullScreen =>
    case FullscreenDismissed =>
    case HideTimerElapsed =>
    case SeekStart =>
    case SeekEnd(_) =>
    case PressVideo =>
    case WillUnmount =>
  }

  /** Seek commands are only appended, one per end of playback, skip press and
      seek-bar release: unlike on Android, play never seeks. */
  lemma {:induction false} SeekCommandsAccounted(s: State, es: seq<Event>)
    requires Inv(s) && AllAdmissible(es)
    ensures |s.seeks| <= |Run(s, es).seeks| && Run(s, es).seeks[..|s.seeks|] == s.seeks
    ensures |Run(s, es).seeks| == |s.seeks| + CountSeeks(es)
    decreases |es|
  {
    if es != [] {
      AllAdmissibleTail(es);
      var s' := Step(s, es[0]);
      StepSeeks(s, es[0]);
      SeekCommandsAccounted(s', es[1..]);
      assert Run(s, es) == Run(s', es[1..]);
      var log := Run(s', es[1..]).seeks;
      assert log[..|s.seeks|] == log[..|s'.seeks|][..|s.seeks|];
    }
  }

  /** Play starts playback and hides the poster without seeking. */
  lemma PlayDoesNotSeek(s: State)
    requires Inv(s)
    ensures Step(s, PressPlay) == s.(paused := false, videoEnded := false)
  {
  }

  /** The end of playback only rewinds; it is the media element's report of a seek to 0
      that pauses and brings the poster back. Reports of other seek times change nothing. */
  lemma EndRewindsThenSeekReportPauses(s: State, t: real)
    requires Inv(s)
    ensures Step(s, End) == s.(seeks := s.seeks + [0.0])
    ensures t != 0.0 ==> Step(s, Seeked(t)) == s
    ensures Step(Step(s, End), Seeked(0.0)).paused && Step(Step(s, End), Seeked(0.0)).videoEnded
  {
  }

  /** A seek to 0 for any reason is read as the end of the video: pressing back-15 in
      the first 15 seconds rewinds to 0, and its seek report pauses playback and shows
      the poster. */
  lemma Back15NearStartLooksLikeEnd(s: State)
    requires Inv(s) && 0.0 <= s.duration && s.currentTime <= 15.0
    ensures Step(s, PressBack15).seeks == s.seeks + [0.0]
    ensures Step(Step(s, PressBack15), Seeked(0.0)).paused
    ensures Step(Step(s, PressBack15), Seeked(0.0)).videoEnded
  {
  }

  /** Loading pauses the video whatever it was doing and stores the duration. */
  lemma LoadPauses(s: State, n: Size, d: real)
    requires Inv(s) && n.width != 0.0
    ensures var r := Step(s, Load(n, d)); r.paused && !r.loading && r.duration == d && r.seeks == s.seeks
  {
  }

  /** The skip buttons seek inside `[0, duration]`, to `currentTime ∓ 15` where that is
      inside, and leave `currentTime` to the next progress report. */
  lemma SkipsStayInRange(s: State, back: bool)
    requires Inv(s) && 0.0 <= s.duration
    ensures var r := Step(s, if back then PressBack15 else PressForward15);
      var want := if back then s.currentTime - 15.0 else s.currentTime + 15.0;
      && r.seeks == s.seeks + [r.seeks[|s.seeks|]]
      && 0.0 <= r.seeks[|s.seeks|] <= s.duration
      && (0.0 <= want <= s.duration ==> r.seeks[|s.seeks|] == want)
      && r.currentTime == s.currentTime
      && r.timer == TimerRestart(s.timer)
  {
  }

  /** The sound button flips `muted` only while the hardware volume is not 0; a volume
      report sets both flags, and the silent switch sets both `silentSwitch` and `muted`. */
  lemma SoundControls(s: State, v: real, on: bool)
    requires Inv(s)
    ensures s.hardwareSilent ==> Step(s, PressToggleSound).muted == s.muted
    ensures s.hardwareSilent ==> EffectiveMute(Step(s, PressToggleSound))
    ensures !s.hardwareSilent ==> Step(s, PressToggleSound).muted == !s.muted
    ensures Step(s, PressToggleSound).timer == TimerRestart(s.timer)
    ensures EffectiveMute(Step(s, VolumeChanged(v))) <==> v == 0.0
    ensures Step(s, SilentSwitchChanged(on)).silentSwitch == on
    ensures Step(s, SilentSwitchChanged(on)).muted == on
  {
  }

  predicate AllRateChanges(es: seq<Event>) {
    forall i | 0 <= i < |es| :: es[i].PlaybackRateChange?
  }

  /** In fullscreen a rate report decides `paused`; outside it the report is ignored. */
  lemma RateChangeInFullscreen(s: State, rate: real)
    requires Inv(s)
    ensures s.fullscreen ==> Step(s, PlaybackRateChange(rate)).paused == (rate == 0.0)
    ensures Step(s, PressFullScreen).fullscreen && !Step(s, FullscreenDismissed).fullscreen
  {
  }

  /** Once the fullscreen player is dismissed, no number of rate reports changes anything. */
  lemma {:induction false} RateChangesIgnoredAfterDismiss(s: State, es: seq<Event>)
    requires Inv(s) && AllRateChanges(es)
    ensures AllAdmissible(es)
    ensures Run(Step(s, FullscreenDismissed), es) == Step(s, FullscreenDismissed)
    decreases |es|
  {
    assert AllAdmissible(es) by {
      forall i | 0 <= i < |es| ensures Admissible(es[i]) {
        assert es[i].PlaybackRateChange?;
      }
    }
    if es != [] {
      var d := Step(s, FullscreenDismissed);
      assert Step(d, es[0]) == d;
      assert AllRateChanges(es[1..]) by {
        forall i | 0 <= i < |es[1..]| ensures es[1..][i].PlaybackRateChange? {
          assert es[1..][i] == es[i + 1];
        }
      }
      RateChangesIgnoredAfterDismiss(s, es[1..]);
      assert Run(d, es) == Run(d, es[1..]);
    }
  }

  /** Events that do not start the timer and touch the controls only by letting a
      pending hide fire: everything except the sound, skip and pause buttons, the seek
      bar's release and the tap on the video. A new drag and unmounting are among them:
      they only clear the timer. */
  predicate Passive(e: Event) {
    e.DidMount? || e.SilentSwitchChanged? || e.VolumeChanged? || e.Load? || e.End?
    || e.Progress? || e.PlaybackRateChange? || e.Seeked? || e.PressPlay?
    || e.PressFullScreen? || e.FullscreenDismissed? || e.HideTimerElapsed?
    || e.SeekStart? || e.WillUnmount?
  }

  predicate AllPassive(es: seq<Event>) {
    forall i | 0 <= i < |es| :: Passive(es[i])
  }

  /** A passive event with no hide pending leaves the controls and the timer queue alone. */
  lemma StepPassive(s: State, e: Event)
    requires Inv(s) && Admissible(e) && Passive(e) && s.timer.pending == {}
    ensures Step(s, e).showControls == s.showControls
    ensures Step(s, e).timer.pending == {}
  {
    match e
    case DidMount =>
    case SilentSwitchChanged(_) =>
    case VolumeChanged(_) =>
    case Load(_, _) =>
    case End =>
    case Progress(_) =>
    case PlaybackRateChange(_) =>
    case Seeked(_) =>
    case PressPlay =>
    case PressFullScreen =>
    case FullscreenDismissed =>
    case HideTimerElapsed =>
    case SeekStart =>
    case WillUnmount =>
  }

  /** With no hide pending, nothing hides the controls until something restarts the timer. */
  lemma {:induction false} NothingPendingNothingHides(s: State, es: seq<Event>)
    requires Inv(s) && AllAdmissible(es) && AllPassive(es)
    requires s.timer.pending == {}
    ensures Run(s, es).showControls == s.showControls
    ensures Run(s, es).timer.pending == {}
    decreases |es|
  {
    if es != [] {
      AllAdmissibleTail(es);
      assert AllPassive(es[1..]) by {
        forall i | 0 <= i < |es[1..]| ensures Passive(es[1..][i]) {
          assert es[1..][i] == es[i + 1];
        }
      }
      StepPassive(s, es[0]);
      NothingPendingNothingHides(Step(s, es[0]), es[1..]);
      assert Run(s, es) == Run(Step(s, es[0]), es[1..]);
    }
  }

  /** Starting to scrub suspends the auto-hide: until something restarts the timer, the
      controls stay, through cancelled drags, new drags and everything else that does
      not restart it. */
  lemma ScrubbingSuspendsHiding(s: State, es: seq<Event>)
    requires Inv(s) && AllAdmissible(es) && AllPassive(es)
    ensures Run(Step(s, SeekStart), es).showControls == s.showControls
  {
    NothingPendingNothingHides(Step(s, SeekStart), es);
  }

  /** After unmounting no hide fires any more, and the video is paused. */
  lemma UnmountStopsHiding(s: State, es: seq<Event>)
    requires Inv(s) && AllAdmissible(es) && AllPassive(es)
    ensures Step(s, WillUnmount).paused && Step(s, WillUnmount).timer.handle == 0
    ensures Run(Step(s, WillUnmount), es).showControls == s.showControls
  {
    NothingPendingNothingHides(Step(s, WillUnmount), es);
  }

  /** Events that restart the timer. */
  predicate Restarts(e: Event) {
    e.PressToggleSound? || e.PressBack15? || e.PressTogglePause? || e.PressForward15? || e.SeekEnd?
  }

  /** A restarting event replaces whatever was pending by one fresh timeout. */
  lemma StepRestarts(s: State, e: Event)
    requires Inv(s) && Restarts(e)
    ensures Admissible(e)
    ensures Step(s, e).timer == TimerRestart(s.timer)
  {
  }

  /** The quiet period after a restart hides the controls once; a second one finds
      nothing left to fire. */
  lemma HideFiresOnce(r: State)
    requires Inv(r) && r.timer.pending == {r.timer.handle}
    ensures !Step(r, HideTimerElapsed).showControls
    ensures Step(r, HideTimerElapsed).timer.pending == {}
    ensures Step(Step(r, HideTimerElapsed), HideTimerElapsed) == Step(r, HideTimerElapsed)
  {
  }

  /** After a burst of interactions exactly one hide is pending, none of the hides
      pending before the burst survives, the next quiet period hides the controls once,
      and a second one finds nothing left to fire. */
  lemma {:induction false} BurstLeavesOneHide(s: State, es: seq<Event>)
    requires Inv(s) && es != [] && forall i | 0 <= i < |es| :: Restarts(es[i])
    ensures AllAdmissible(es)
    ensures Run(s, es).timer.pending == {Run(s, es).timer.handle}
    ensures Run(s, es).timer.pending !! s.timer.pending
    ensures s.timer.nextId <= Run(s, es).timer.handle
    ensures !Step(Run(s, es), HideTimerElapsed).showControls
    ensures Step(Step(Run(s, es), HideTimerElapsed), HideTimerElapsed) == Step(Run(s, es), HideTimerElapsed)
    decreases |es|
  {
    assert AllAdmissible(es) by {
      forall i | 0 <= i < |es| ensures Admissible(es[i]) {
        StepRestarts(s, es[i]);
      }
    }
    AllAdmissibleTail(es);
    var s' := Step(s, es[0]);
    StepRestarts(s, es[0]);
    assert Run(s, es) == Run(s', es[1..]);
    if |es| > 1 {
      assert forall i | 0 <= i < |es[1..]| :: Restarts(es[1..][i]) by {
        forall i | 0 <= i < |es[1..]| ensures Restarts(es[1..][i]) {
          assert es[1..][i] == es[i + 1];
        }
      }
      BurstLeavesOneHide(s', es[1..]);
      var r := Run(s', es[1..]);
      assert r.timer.handle !in s'.timer.pending;
      assert s.timer.pending <= {s.timer.handle};
    } else {
      assert es[1..] == [];
    }
    HideFiresOnce(Run(s, es));
  }

  /** Tapping the video shows or hides the controls; showing them starts the timer,
      hiding them leaves a pending hide where it is. */
  lemma PressVideoToggles(s: State)
    requires Inv(s)
    ensures Step(s, PressVideo).showControls == !s.showControls
    ensures !s.showControls ==> Step(s, PressVideo).timer == TimerRestart(s.timer)
    ensures s.showControls ==> Step(s, PressVideo).timer == s.timer
  {
  }

  /** The seek bar's release restarts the timer and seeks to the reported time. */
  lemma SeekEndRestartsAndSeeks(s: State, t: real)
    requires Inv(s)
    ensures Step(s, SeekEnd(t)).seeks == s.seeks + [t]
    ensures Step(s, SeekEnd(t)).timer == TimerRestart(s.timer)
  {
  }

  /** The component. Its fields are the JavaScript class's state and `controlTimer`,
      with `pendingTimers`/`nextTimerId` standing for the runtime's timeout queue and
      `seeks` for the commands sent to the media element. */
  class VideoPlayer {
    const screenWidth: real
    var height: real
    var width: real
    var paused: bool
    var showControls: bool
    var muted: bool
    var currentTime: real
    var duration: real
    var loading: bool
    var videoEnded: bool
    var fullscreen: bool
    var silentSwitch: bool
    var hardwareSilent: bool
    var controlTimer: nat
    var pendingTimers: set<nat>
    var nextTimerId: nat
    var seeks: seq<real>

    function Model(): State
      reads this
    {
      State(screenWidth, Size(width, height),
            paused, showControls, muted, currentTime, duration, loading, videoEnded,
            fullscreen, silentSwitch, hardwareSilent,
            Timer(controlTimer, pendingTimers, nextTimerId), seeks)
    }

    ghost predicate Valid()
      reads this
    {
      Inv(Model())
    }

    constructor (screenWidth: real)
      ensures Valid() && Model() == Initial(screenWidth)
    {
      this.screenWidth := screenWidth;
      height, width := 180.0, screenWidth;
      paused, showControls, muted := true, false, false;
      currentTime, duration := 0.0, 0.0;
      loading, videoEnded, fullscreen := true, true, false;
      silentSwitch, hardwareSilent := false, false;
      controlTimer, pendingTimers, nextTimerId := 0, {}, 1;
      seeks := [];
    }

    /** `componentDidMount`: size the box for the default video size. */
    method ComponentDidMount()
      requires Valid()
      modifies this
      ensures width == screenWidth
      ensures Valid() && Model() == Step(old(Model()), DidMount)
    {
      var h := (DefaultVideoSize.height / DefaultVideoSize.width) * screenWidth;
      height, width := h, screenWidth;
    }

    /** The silent-switch listener: the switch position becomes `muted` too. */
    method OnSilentSwitch(on: bool)
      requires Valid()
      modifies this
      ensures silentSwitch == muted == on
      ensures Valid() && Model() == Step(old(Model()), SilentSwitchChanged(on))
    {
      silentSwitch, muted := on, on;
    }

    /** `onVolumeChanged`: a silent device is both hardware-silent and muted. */
    method OnVolumeChanged(volume: real)
      requires Valid()
      modifies this
      ensures hardwareSilent == muted == (volume == 0.0)
      ensures Valid() && Model() == Step(old(Model()), VolumeChanged(volume))
    {
      hardwareSilent := volume == 0.0;
      muted := volume == 0.0;
    }

    /** `onLoad`: size the box for the natural size, store the duration and pause. */
    method OnLoad(naturalSize: Size, duration: real)
      requires Valid() && naturalSize.width != 0.0
      modifies this
      ensures paused && !loading && this.duration == duration
      ensures Valid() && Model() == Step(old(Model()), Load(naturalSize, duration))
    {
      var h := (naturalSize.height / naturalSize.width) * screenWidth;
      height, width := h, screenWidth;
      this.duration := duration;
      loading := false;
      paused := true;
    }

    /** `onEnd`: rewind, and nothing else. */
    method OnEnd()
      requires Valid()
      modifies this
      ensures seeks == old(seeks) + [0.0]
      ensures Valid() && Model() == Step(old(Model()), End)
    {
      seeks := seeks + [0.0];
    }

    /** `onProgress`. */
    method OnProgress(currentTime: real)
      requires Valid()
      modifies this
      ensures this.currentTime == currentTime
      ensures Valid() && Model() == Step(old(Model()), Progress(currentTime))
    {
      this.currentTime := currentTime;
    }

    /** `onPlaybackRateChange`: only the fullscreen player's rate decides `paused`. */
    method OnPlaybackRateChange(playbackRate: real)
      requires Valid()
      modifies this
      ensures paused == if old(fullscreen) then playbackRate == 0.0 else old(paused)
      ensures Valid() && Model() == Step(old(Model()), PlaybackRateChange(playbackRate))
    {
      if fullscreen {
        paused := playbackRate == 0.0;
      }
    }

    /** `onSeek`: a seek to 0 counts as the end of the video. */
    method OnSeek(seekTime: real)
      requires Valid()
      modifies this
      ensures seekTime == 0.0 ==> paused && videoEnded
      ensures Valid() && Model() == Step(old(Model()), Seeked(seekTime))
    {
      if seekTime == 0.0 {
        paused, videoEnded := true, true;
      }
    }

    /** `onPressPlay`: play and hide the poster; the press is always handled. */
    method OnPressPlay() returns (handled: bool)
      requires Valid()
      modifies this
      ensures handled && !paused && !videoEnded && seeks == old(seeks)
      ensures Valid() && Model() == Step(old(Model()), PressPlay)
    {
      paused, videoEnded := false, false;
      handled := true;
    }

    /** `onPressToggleSound`. */
    method OnPressToggleSound()
      requires Valid()
      modifies this
      ensures muted == (if old(hardwareSilent) then old(muted) else !old(muted))
      ensures Valid() && Model() == Step(old(Model()), PressToggleSound)
    {
      if !hardwareSilent {
        muted := !muted;
      }
      StartControlTimer();
    }

    /** `onPressBack15`. */
    method OnPressBack15()
      requires Valid()
      modifies this
      ensures seeks == old(seeks) + [SkipTarget(old(currentTime), old(duration), -SkipSeconds)]
      ensures Valid() && Model() == Step(old(Model()), PressBack15)
    {
      var target := Clamp(currentTime - SkipSeconds, 0.0, duration);
      seeks := seeks + [target];
      StartControlTimer();
    }

    /** `onPressTogglePause`. */
    method OnPressTogglePause()
      requires Valid()
      modifies this
      ensures paused == !old(paused)
      ensures Valid() && Model() == Step(old(Model()), PressTogglePause)
    {
      paused := !paused;
      StartControlTimer();
    }

    /** `onPressForward15`. */
    method OnPressForward15()
      requires Valid()
      modifies this
      ensures seeks == old(seeks) + [SkipTarget(old(currentTime), old(duration), SkipSeconds)]
      ensures Valid() && Model() == Step(old(Model()), PressForward15)
    {
      var target := Clamp(currentTime + SkipSeconds, 0.0, duration);
      seeks := seeks + [target];
      StartControlTimer();
    }

    /** `onPressFullScreen`: hand over to the native fullscreen player. */
    method OnPressFullScreen()
      requires Valid()
      modifies this
      ensures fullscreen
      ensures Valid() && Model() == Step(old(Model()), PressFullScreen)
    {
      fullscreen := true;
    }

    /** `onFullscreenPlayerDidDismiss`. */
    method OnFullscreenPlayerDidDismiss()
      requires Valid()
      modifies this
      ensures !fullscreen
      ensures Valid() && Model() == Step(old(Model()), FullscreenDismissed)
    {
      fullscreen := false;
    }

    /** `hideControls`. */
    method HideControls()
      modifies this
      ensures !showControls
      ensures Model() == old(Model()).(showControls := false)
    {
      showControls := false;
    }

    /** The pending timeout, if any, comes due: it leaves the queue and calls
        `hideControls`. */
    method ControlTimerElapsed()
      requires Valid()
      modifies this
      ensures pendingTimers == {}
      ensures Valid() && Model() == Step(old(Model()), HideTimerElapsed)
    {
      if pendingTimers != {} {
        pendingTimers := {};
        HideControls();
      }
    }

    /** `startControlTimer`: clear the stored timeout, then schedule a fresh one. */
    method StartControlTimer()
      requires Valid()
      modifies this
      ensures pendingTimers == {controlTimer} && controlTimer !in old(pendingTimers)
      ensures Valid() && Model() == old(Model()).(timer := TimerRestart(old(Model()).timer))
    {
      if controlTimer != 0 {
        pendingTimers := pendingTimers - {controlTimer};
        controlTimer := 0;
      }
      controlTimer := nextTimerId;
      pendingTimers := pendingTimers + {controlTimer};
      nextTimerId := nextTimerId + 1;
    }

    /** `onSeekStart`: clear the stored timeout; the field keeps its handle. */
    method OnSeekStart()
      requires Valid()
      modifies this
      ensures pendingTimers == {} && controlTimer == old(controlTimer)
      ensures Valid() && Model() == Step(old(Model()), SeekStart)
    {
      pendingTimers := pendingTimers - {controlTimer};
    }

    /** `onSeekEnd`: restart the timer and seek to the time the bar reported. */
    method OnSeekEnd(time: real)
      requires Valid()
      modifies this
      ensures seeks == old(seeks) + [time] && pendingTimers == {controlTimer}
      ensures Valid() && Model() == Step(old(Model()), SeekEnd(time))
    {
      StartControlTimer();
      seeks := seeks + [time];
    }

    /** `onPressVideo`: flip the controls; once they show, restart the timer. */
    method OnPressVideo()
      requires Valid()
      modifies this
      ensures showControls == !old(showControls)
      ensures Valid() && Model() == Step(old(Model()), PressVideo)
    {
      showControls := !showControls;
      if showControls {
        StartControlTimer();
      }
    }

    /** `componentWillUnmount`: clear and forget the timeout, pause. */
    method ComponentWillUnmount()
      requires Valid()
      modifies this
      ensures pendingTimers == {} && controlTimer == 0 && paused
      ensures Valid() && Model() == Step(old(Model()), WillUnmount)
    {
      if controlTimer != 0 {
        pendingTimers := pendingTimers - {controlTimer};
        controlTimer := 0;
      }
      paused := true;
    }
  }
}
