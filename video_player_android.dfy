/** The Android video player: playback flags, the player box, the skip and play
    buttons, the seek bar's callbacks and the timer that hides the controls.
    Commands sent to the media engine are recorded as the list of seek targets. */
module VideoPlayerAndroid {
  import opened PlayerControls

  /** The orientation report that selects the portrait box. */
  const Portrait: string := "PORTRAIT"
  /** Every report whose first nine characters are these selects the landscape box. */
  const Landscape: string := "LANDSCAPE"

  /** JavaScript `s.substring(0, n)`: a string shorter than `n` comes back whole. */
  function Substring0(s: string, n: nat): (r: string)
    ensures |r| == if |s| < n then |s| else n
    ensures r == s[..|r|]
  {
    if |s| <= n then s else s[..n]
  }

  /** `orientation.substring(0, 9) === 'LANDSCAPE'`: a report counts as landscape exactly
      when it starts with `LANDSCAPE`. */
  predicate IsLandscape(orientation: string)
    ensures IsLandscape(orientation) <==> |orientation| >= 9 && orientation[..9] == Landscape
  {
    Substring0(orientation, 9) == Landscape
  }

  lemma OrientationReports()
    ensures IsLandscape("LANDSCAPE-LEFT") && IsLandscape("LANDSCAPE-RIGHT")
    ensures !IsLandscape(Portrait) && !IsLandscape("PORTRAIT-UPSIDEDOWN") && !IsLandscape("UNKNOWN")
  {
    assert Substring0("LANDSCAPE-LEFT", 9) == "LANDSCAPE";
    assert Substring0("LANDSCAPE-RIGHT", 9) == "LANDSCAPE";
    assert Substring0("PORTRAIT-UPSIDEDOWN", 9)[0] == 'P';
  }

  /** `updatePlayerDimensions`: the box for an orientation report. */
  function BoxFor(orientation: string, video: Size, screenWidth: real, box: Size): (r: Size)
    requires video.width != 0.0 && video.height != 0.0
    ensures orientation == Portrait ==>
              r.width == screenWidth && r.height * video.width == video.height * r.width
    ensures orientation != Portrait && IsLandscape(orientation) ==>
              r.height == screenWidth && r.width * video.height == video.width * r.height
    ensures orientation != Portrait && !IsLandscape(orientation) ==> r == box
  {
    if orientation == Portrait then PortraitBox(video, screenWidth)
    else if IsLandscape(orientation) then LandscapeBox(video, screenWidth)
    else box
  }

  /** The player's state: `screenWidth` is `SCREEN_WIDTH`, `box` the `width`/`height`
      state, `video` the `videoSize` field, `timer` the `controlTimer` field with the
      timeouts it refers to, and `seeks` every `player.current.seek` target, oldest first. */
  datatype State = State(
    screenWidth: real,
    box: Size,
    video: Size,
    paused: bool,
    showControls: bool,
    muted: bool,
    currentTime: real,
    duration: real,
    loading: bool,
    videoEnded: bool,
    fullscreen: bool,
    hardwareSilent: bool,
    isFirstTime: bool,
    timer: Timer,
    seeks: seq<real>)

  /** The state the class's field initialisers set up: paused on the poster, loading,
      controls hidden, no timer and nothing sent to the media element. */
  function Initial(screenWidth: real): (r: State)
    ensures Inv(r)
    ensures r.paused && r.videoEnded && r.loading && !r.showControls && r.isFirstTime
    ensures r.timer.pending == {} && r.timer.handle == 0 && r.seeks == []
  {
    State(screenWidth, Size(screenWidth, 200.0), Size(1920.0, 1080.0),
          true, false, false, 0.0, 0.0, true, true, false, false, true, NoTimer, [])
  }

  ghost predicate Inv(s: State) {
    TimerValid(s.timer) && s.video.width != 0.0 && s.video.height != 0.0
  }

  /** What the media element receives as its `muted` prop: a silenced device always
      mutes the player, otherwise the sound button decides. */
  predicate EffectiveMute(s: State)
    ensures s.hardwareSilent ==> EffectiveMute(s)
    ensures !s.hardwareSilent ==> (EffectiveMute(s) <==> s.muted)
  {
    s.muted || s.hardwareSilent
  }

  /** Everything that reaches the player: lifecycle calls, platform reports, media
      events, button presses, the seek bar's callbacks, and the moment a pending
      5000 ms `hideControls` timeout comes due (other events, such as progress
      reports, may arrive in between without delaying it). */
  datatype Event =
    | DidMount
    | InitialVolume(volume: real)
    | VolumeChanged(volume: real)
    | Orientation(orientation: string)
    | Load(naturalSize: Size, duration: real)
    | End
    | Progress(currentTime: real)
    | PressPlay
    | PressToggleSound
    | PressBack15
    | PressTogglePause
    | PressForward15
    | PressFullScreen
    | HideTimerElapsed
    | SeekStart
    | SeekEnd(time: real)
    | PressVideo
    | WillUnmount

  /** A loaded video has non-zero natural dimensions. */
  predicate Admissible(e: Event) {
    e.Load? ==> e.naturalSize.width != 0.0 && e.naturalSize.height != 0.0
  }

  /** The effect of one event on the player. */
  function Step(s: State, e: Event): (r: State)
    requires Inv(s) && Admissible(e)
    ensures Inv(r)
  {
    match e
    case DidMount => s.(box := BoxFor(Portrait, s.video, s.screenWidth, s.box))
    case InitialVolume(v) => s.(hardwareSilent := v == 0.0)
    case VolumeChanged(v) => s.(hardwareSilent := v == 0.0, muted := v == 0.0)
    case Orientation(o) => s.(box := BoxFor(o, s.video, s.screenWidth, s.box))
    case Load(n, d) =>
      s.(video := n, box := PortraitBox(n, s.screenWidth), duration := d, loading := false, paused := true)
    case End => s.(paused := true, videoEnded := true, seeks := s.seeks + [0.0])
    case Progress(t) => s.(currentTime := t)
    case PressPlay =>
      s.(seeks := if s.isFirstTime then s.seeks + [0.0] else s.seeks,
         isFirstTime := false, paused := false, videoEnded := false)
    case PressToggleSound =>
      s.(muted := if s.hardwareSilent then s.muted else !s.muted, timer := TimerRestart(s.timer))
    case PressBack15 =>
      s.(seeks := s.seeks + [SkipTarget(s.currentTime, s.duration, -SkipSeconds)],
         timer := TimerRestart(s.timer))
    case PressTogglePause => s.(paused := !s.paused, timer := TimerRestart(s.timer))
    case PressForward15 =>
      s.(seeks := s.seeks + [SkipTarget(s.currentTime, s.duration, SkipSeconds)],
         timer := TimerRestart(s.timer))
    case PressFullScreen => s.(fullscreen := !s.fullscreen)
    case HideTimerElapsed =>
      if s.timer.pending != {} then s.(showControls := false, timer := TimerElapse(s.timer)) else s
    case SeekStart => s.(timer := TimerClear(s.timer))
    case SeekEnd(t) => s.(timer := TimerRestart(s.timer), seeks := s.seeks + [t])
    case PressVideo =>
      if s.showControls then s.(showControls := false)
      else s.(showControls := true, timer := TimerRestart(s.timer))
    case WillUnmount => s.(timer := TimerDispose(s.timer), paused := true)
  }

  predicate AllAdmissible(es: seq<Event>) {
    forall i | 0 <= i < |es| :: Admissible(es[i])
  }

  lemma AllAdmissibleTail(es: seq<Event>)
    requires es != [] && AllAdmissible(es)
    ensures Admissible(es[0]) && AllAdmissible(es[1..])
  {
    forall i | 0 <= i < |es[1..]| ensures Admissible(es[1..][i]) {
      assert es[1..][i] == es[i + 1];
    }
  }

  /** The player after a sequence of events. */
  function Run(s: State, es: seq<Event>): (r: State)
    requires Inv(s) && AllAdmissible(es)
    ensures Inv(r)
    decreases |es|
  {
    if es == [] then s
    else
      AllAdmissibleTail(es);
      Run(Step(s, es[0]), es[1..])
  }

  /** However the events interleave, at most one `hideControls` is ever pending. */
  lemma AtMostOneHidePending(s: State, es: seq<Event>)
    requires Inv(s) && AllAdmissible(es)
    ensures |Run(s, es).timer.pending| <= 1
  {
    AtMostOnePending(Run(s, es).timer);
  }

  /** The events that always send a seek command. */
  predicate AlwaysSeeks(e: Event) {
    e.End? || e.PressBack15? || e.PressForward15? || e.SeekEnd?
  }

  function CountAlwaysSeeks(es: seq<Event>): nat {
    if es == [] then 0 else (if AlwaysSeeks(es[0]) then 1 else 0) + CountAlwaysSeeks(es[1..])
  }

  /** One event appends one seek if it always seeks, one more if it is the first play. */
  lemma StepSeeks(s: State, e: Event)
    requires Inv(s) && Admissible(e)
    ensures Step(s, e).isFirstTime == (s.isFirstTime && e != PressPlay)
    ensures |Step(s, e).seeks|
            == |s.seeks| + (if AlwaysSeeks(e) then 1 else 0) + (if s.isFirstTime && e == PressPlay then 1 else 0)
    ensures Step(s, e).seeks[..|s.seeks|] == s.seeks
  {
    match e
    case DidMount =>
    case InitialVolume(_) =>
    case VolumeChanged(_) =>
    case Orientation(_) =>
    case Load(_, _) =>
    case End =>
    case Progress(_) =>
    case PressPlay =>
    case PressToggleSound =>
    case PressBack15 =>
    case PressTogglePause =>
    case PressForward15 =>
    case PressFullScreen =>
    case HideTimerElapsed =>
    case SeekStart =>
    case SeekEnd(_) =>
    case PressVideo =>
    case WillUnmount =>
  }

  /** Seek commands are only appended; one is sent per end of playback, skip press and
      seek-bar release, plus a single `seek(0)` from the first play ever. */
  lemma {:induction false} SeekCommandsAccounted(s: State, es: seq<Event>)
    requires Inv(s) && AllAdmissible(es)
    ensures Run(s, es).isFirstTime == (s.isFirstTime && PressPlay !in es)
    ensures |s.seeks| <= |Run(s, es).seeks| && Run(s, es).seeks[..|s.seeks|] == s.seeks
    ensures |Run(s, es).seeks|
            == |s.seeks| + CountAlwaysSeeks(es) + (if s.isFirstTime && PressPlay in es then 1 else 0)
    decreases |es|
  {
    if es != [] {
      AllAdmissibleTail(es);
      var s' := Step(s, es[0]);
      StepSeeks(s, es[0]);
      SeekCommandsAccounted(s', es[1..]);
      assert Run(s, es) == Run(s', es[1..]);
      assert PressPlay in es <==> es[0] == PressPlay || PressPlay in es[1..] by {
        assert es == [es[0]] + es[1..];
      }
      var log := Run(s', es[1..]).seeks;
      assert log[..|s.seeks|] == log[..|s'.seeks|][..|s.seeks|];
    }
  }

  /** However often play is pressed, it seeks to 0 once at most: on the first press. */
  lemma PlaySeeksToStartOnce(s: State, n: nat)
    requires Inv(s)
    ensures AllAdmissible(seq(n, _ => PressPlay))
    ensures Run(s, seq(n, _ => PressPlay)).seeks
            == s.seeks + (if s.isFirstTime && n > 0 then [0.0] else [])
  {
    var es := seq(n, _ => PressPlay);
    SeekCommandsAccounted(s, es);
    CountPlays(n);
    if n > 0 {
      assert es[0] == PressPlay;
      var log := Run(s, es).seeks;
      if s.isFirstTime {
        PlaysSeekToZero(s, n);
      }
      assert log == log[..|s.seeks|] + log[|s.seeks|..];
    }
  }

  lemma {:induction false} CountPlays(n: nat)
    ensures CountAlwaysSeeks(seq(n, _ => PressPlay)) == 0
  {
    if n > 0 {
      assert seq(n, _ => PressPlay)[1..] == seq(n - 1, _ => PressPlay);
      CountPlays(n - 1);
    }
  }

  /** What a first press of play appends is a seek to 0. */
  lemma PlaysSeekToZero(s: State, n: nat)
    requires Inv(s) && s.isFirstTime && n > 0
    ensures AllAdmissible(seq(n, _ => PressPlay))
    ensures |Run(s, seq(n, _ => PressPlay)).seeks| > |s.seeks|
    ensures Run(s, seq(n, _ => PressPlay)).seeks[|s.seeks|] == 0.0
  {
    var es := seq(n, _ => PressPlay);
    var s' := Step(s, PressPlay);
    assert es[1..] == seq(n - 1, _ => PressPlay);
    CountPlays(n - 1);
    SeekCommandsAccounted(s', es[1..]);
    assert Run(s, es) == Run(s', es[1..]);
  }

  /** The skip buttons seek inside `[0, duration]`, to `currentTime ∓ 15` where that is
      inside, and leave `currentTime` to the next progress report. */
  lemma SkipsStayInRange(s: State, back: bool)
    requires Inv(s) && 0.0 <= s.duration
    ensures var r := Step(s, if back then PressBack15 else PressForward15);
      var want := if back then s.currentTime - 15.0 else s.currentTime + 15.0;
      && r.seeks == s.seeks + [r.seeks[|s.seeks|]]
      && 0.0 <= r.seeks[|s.seeks|] <= s.duration
      && (0.0 <= want <= s.duration ==> r.seeks[|s.seeks|] == want)
      && r.currentTime == s.currentTime
      && r.timer == TimerRestart(s.timer)
  {
  }

  /** Loading pauses the video whatever it was doing; the end of playback pauses,
      shows the poster again and rewinds to 0. */
  lemma LoadAndEndPause(s: State, n: Size, d: real)
    requires Inv(s) && n.width != 0.0 && n.height != 0.0
    ensures var r := Step(s, Load(n, d)); r.paused && !r.loading && r.duration == d && r.seeks == s.seeks
    ensures var r := Step(s, End); r.paused && r.videoEnded && r.seeks == s.seeks + [0.0]
  {
  }

  /** The sound button flips `muted` only while the hardware volume is not 0, so it
      cannot unmute a silenced device; a volume report sets both flags. */
  lemma SoundControls(s: State, v: real)
    requires Inv(s)
    ensures s.hardwareSilent ==> Step(s, PressToggleSound).muted == s.muted
    ensures s.hardwareSilent ==> EffectiveMute(Step(s, PressToggleSound))
    ensures !s.hardwareSilent ==> Step(s, PressToggleSound).muted == !s.muted
    ensures Step(s, PressToggleSound).timer == TimerRestart(s.timer)
    ensures EffectiveMute(Step(s, VolumeChanged(v))) <==> v == 0.0
    ensures Step(s, InitialVolume(v)).muted == s.muted
  {
  }

  /** Events that do not start the timer and touch the controls only by letting a
      pending hide fire: everything except the sound, skip and pause buttons, the seek
      bar's release and the tap on the video. A new drag and unmounting are among them:
      they only clear the timer. */
  predicate Passive(e: Event) {
    e.DidMount? || e.InitialVolume? || e.VolumeChanged? || e.Orientation? || e.Load? || e.End?
    || e.Progress? || e.PressPlay? || e.PressFullScreen? || e.HideTimerElapsed?
    || e.SeekStart? || e.WillUnmount?
  }

  predicate AllPassive(es: seq<Event>) {
    forall i | 0 <= i < |es| :: Passive(es[i])
  }

  /** A passive event with no hide pending leaves the controls and the timer queue alone. */
  lemma StepPassive(s: State, e: Event)
    requires Inv(s) && Admissible(e) && Passive(e) && s.timer.pending == {}
    ensures Step(s, e).showControls == s.showControls
    ensures Step(s, e).timer.pending == {}
  {
    match e
    case DidMount =>
    case InitialVolume(_) =>
    case VolumeChanged(_) =>
    case Orientation(_) =>
    case Load(_, _) =>
    case End =>
    case Progress(_) =>
    case PressPlay =>
    case PressFullScreen =>
    case HideTimerElapsed =>
    case SeekStart =>
    case WillUnmount =>
  }

  /** With no hide pending, nothing hides the controls until something restarts the timer. */
  lemma {:induction false} NothingPendingNothingHides(s: State, es: seq<Event>)
    requires Inv(s) && AllAdmissible(es) && AllPassive(es)
    requires s.timer.pending == {}
    ensures Run(s, es).showControls == s.showControls
    ensures Run(s, es).timer.pending == {}
    decreases |es|
  {
    if es != [] {
      AllAdmissibleTail(es);
      assert AllPassive(es[1..]) by {
        forall i | 0 <= i < |es[1..]| ensures Passive(es[1..][i]) {
          assert es[1..][i] == es[i + 1];
        }
      }
      StepPassive(s, es[0]);
      NothingPendingNothingHides(Step(s, es[0]), es[1..]);
      assert Run(s, es) == Run(Step(s, es[0]), es[1..]);
    }
  }

  /** Starting to scrub suspends the auto-hide: until something restarts the timer, the
      controls stay, through cancelled drags, new drags and everything else that does
      not restart it. */
  lemma ScrubbingSuspendsHiding(s: State, es: seq<Event>)
    requires Inv(s) && AllAdmissible(es) && AllPassive(es)
    ensures Run(Step(s, SeekStart), es).showControls == s.showControls
  {
    NothingPendingNothingHides(Step(s, SeekStart), es);
  }

  /** After unmounting no hide fires any more, and the video is paused. */
  lemma UnmountStopsHiding(s: State, es: seq<Event>)
    requires Inv(s) && AllAdmissible(es) && AllPassive(es)
    ensures Step(s, WillUnmount).paused && Step(s, WillUnmount).timer.handle == 0
    ensures Run(Step(s, WillUnmount), es).showControls == s.showControls
  {
    NothingPendingNothingHides(Step(s, WillUnmount), es);
  }

  /** Events that restart the timer. */
  predicate Restarts(e: Event) {
    e.PressToggleSound? || e.PressBack15? || e.PressTogglePause? || e.PressForward15? || e.SeekEnd?
  }

  /** A restarting event replaces whatever was pending by one fresh timeout. */
  lemma StepRestarts(s: State, e: Event)
    requires Inv(s) && Restarts(e)
    ensures Admissible(e)
    ensures Step(s, e).timer == TimerRestart(s.timer)
  {
  }

  /** The quiet period after a restart hides the controls once; a second one finds
      nothing left to fire. */
  lemma HideFiresOnce(r: State)
    requires Inv(r) && r.timer.pending == {r.timer.handle}
    ensures !Step(r, HideTimerElapsed).showControls
    ensures Step(r, HideTimerElapsed).timer.pending == {}
    ensures Step(Step(r, HideTimerElapsed), HideTimerElapsed) == Step(r, HideTimerElapsed)
  {
  }

  /** After a burst of interactions exactly one hide is pending, none of the hides
      pending before the burst survives, the next quiet period hides the controls once,
      and a second one finds nothing left to fire. */
  lemma {:induction false} BurstLeavesOneHide(s: State, es: seq<Event>)
    requires Inv(s) && es != [] && forall i | 0 <= i < |es| :: Restarts(es[i])
    ensures AllAdmissible(es)
    ensures Run(s, es).timer.pending == {Run(s, es).timer.handle}
    ensures Run(s, es).timer.pending !! s.timer.pending
    ensures s.timer.nextId <= Run(s, es).timer.handle
    ensures !Step(Run(s, es), HideTimerElapsed).showControls
    ensures Step(Step(Run(s, es), HideTimerElapsed), HideTimerElapsed) == Step(Run(s, es), HideTimerElapsed)
    decreases |es|
  {
    assert AllAdmissible(es) by {
      forall i | 0 <= i < |es| ensures Admissible(es[i]) {
        StepRestarts(s, es[i]);
      }
    }
    AllAdmissibleTail(es);
    var s' := Step(s, es[0]);
    StepRestarts(s, es[0]);
    assert Run(s, es) == Run(s', es[1..]);
    if |es| > 1 {
      assert forall i | 0 <= i < |es[1..]| :: Restarts(es[1..][i]) by {
        forall i | 0 <= i < |es[1..]| ensures Restarts(es[1..][i]) {
          assert es[1..][i] == es[i + 1];
        }
      }
      BurstLeavesOneHide(s', es[1..]);
      var r := Run(s', es[1..]);
      assert r.timer.handle !in s'.timer.pending;
      assert s.timer.pending <= {s.timer.handle};
    } else {
      assert es[1..] == [];
    }
    HideFiresOnce(Run(s, es));
  }

  /** Tapping the video shows or hides the controls; showing them starts the timer,
      hiding them leaves a pending hide where it is. */
  lemma PressVideoToggles(s: State)
    requires Inv(s)
    ensures Step(s, PressVideo).showControls == !s.showControls
    ensures !s.showControls ==> Step(s, PressVideo).timer == TimerRestart(s.timer)
    ensures s.showControls ==> Step(s, PressVideo).timer == s.timer
  {
  }

  /** The seek bar's release restarts the timer and seeks to the reported time. */
  lemma SeekEndRestartsAndSeeks(s: State, t: real)
    requires Inv(s)
    ensures Step(s, SeekEnd(t)).seeks == s.seeks + [t]
    ensures Step(s, SeekEnd(t)).timer == TimerRestart(s.timer)
  {
  }

  /** The component. Its fields are the JavaScript class's state, `videoSize`,
      `isFirstTime` and `controlTimer`, with `pendingTimers`/`nextTimerId` standing for
      the runtime's timeout queue and `seeks` for the commands sent to the media element. */
  class VideoPlayer {
    const screenWidth: real
    var height: real
    var width: real
    var videoWidth: real
    var videoHeight: real
    var paused: bool
    var showControls: bool
    var muted: bool
    var currentTime: real
    var duration: real
    var loading: bool
    var videoEnded: bool
    var fullscreen: bool
    var hardwareSilent: bool
    var isFirstTime: bool
    var controlTimer: nat
    var pendingTimers: set<nat>
    var nextTimerId: nat
    var seeks: seq<real>

    function Model(): State
      reads this
    {
      State(screenWidth, Size(width, height), Size(videoWidth, videoHeight),
            paused, showControls, muted, currentTime, duration, loading, videoEnded,
            fullscreen, hardwareSilent, isFirstTime,
            Timer(controlTimer, pendingTimers, nextTimerId), seeks)
    }

    ghost predicate Valid()
      reads this
    {
      Inv(Model())
    }

    constructor (screenWidth: real)
      ensures Valid() && Model() == Initial(screenWidth)
    {
      this.screenWidth := screenWidth;
      height, width := 200.0, screenWidth;
      videoWidth, videoHeight := 1920.0, 1080.0;
      paused, showControls, muted := true, false, false;
      currentTime, duration := 0.0, 0.0;
      loading, videoEnded, fullscreen, hardwareSilent := true, true, false, false;
      isFirstTime := true;
      controlTimer, pendingTimers, nextTimerId := 0, {}, 1;
      seeks := [];
    }

    /** `componentDidMount`: size the box for portrait. */
    method ComponentDidMount()
      requires Valid()
      modifies this
      ensures Valid() && Model() == Step(old(Model()), DidMount)
    {
      UpdatePlayerDimensions(Portrait);
    }

    /** The volume read once after mounting: only `hardwareSilent` follows it. */
    method OnInitialVolume(volume: real)
      requires Valid()
      modifies this
      ensures hardwareSilent == (volume == 0.0)
      ensures Valid() && Model() == Step(old(Model()), InitialVolume(volume))
    {
      hardwareSilent := volume == 0.0;
    }

    /** `onVolumeChanged`: a silent device is both hardware-silent and muted. */
    method OnVolumeChanged(volume: real)
      requires Valid()
      modifies this
      ensures hardwareSilent == muted == (volume == 0.0)
      ensures Valid() && Model() == Step(old(Model()), VolumeChanged(volume))
    {
      hardwareSilent := volume == 0.0;
      muted := volume == 0.0;
    }

    /** `updatePlayerDimensions`. */
    method UpdatePlayerDimensions(orientation: string)
      requires Valid()
      modifies this
      ensures Valid() && Model() == Step(old(Model()), Orientation(orientation))
    {
      if orientation == Portrait {
        var h := (videoHeight / videoWidth) * screenWidth;
        height, width := h, screenWidth;
      } else if Substring0(orientation, 9) == Landscape {
        var w := (videoWidth / videoHeight) * screenWidth;
        height, width := screenWidth, w;
      }
    }

    /** `onLoad`: keep the natural size, size the box for it, store the duration and pause. */
    method OnLoad(naturalSize: Size, duration: real)
      requires Valid() && naturalSize.width != 0.0 && naturalSize.height != 0.0
      modifies this
      ensures paused && !loading && this.duration == duration
      ensures Valid() && Model() == Step(old(Model()), Load(naturalSize, duration))
    {
      videoWidth, videoHeight := naturalSize.width, naturalSize.height;
      var h := (videoHeight / videoWidth) * screenWidth;
      height, width := h, screenWidth;
      this.duration := duration;
      loading := false;
      paused := true;
    }

    /** `onEnd`: pause, show the poster, rewind. */
    method OnEnd()
      requires Valid()
      modifies this
      ensures paused && videoEnded && seeks == old(seeks) + [0.0]
      ensures Valid() && Model() == Step(old(Model()), End)
    {
      paused, videoEnded := true, true;
      seeks := seeks + [0.0];
    }

    /** `onProgress`. */
    method OnProgress(currentTime: real)
      requires Valid()
      modifies this
      ensures this.currentTime == currentTime
      ensures Valid() && Model() == Step(old(Model()), Progress(currentTime))
    {
      this.currentTime := currentTime;
    }

    /** `onPressPlay`: the first press ever rewinds to 0; every press plays. */
    method OnPressPlay()
      requires Valid()
      modifies this
      ensures !paused && !videoEnded && !isFirstTime
      ensures seeks == old(seeks) + (if old(isFirstTime) then [0.0] else [])
      ensures Valid() && Model() == Step(old(Model()), PressPlay)
    {
      if isFirstTime {
        seeks := seeks + [0.0];
        isFirstTime := false;
      }
      paused, videoEnded := false, false;
    }

    /** `onPressToggleSound`. */
    method OnPressToggleSound()
      requires Valid()
      modifies this
      ensures muted == (if old(hardwareSilent) then old(muted) else !old(muted))
      ensures Valid() && Model() == Step(old(Model()), PressToggleSound)
    {
      if !hardwareSilent {
        muted := !muted;
      }
      StartControlTimer();
    }

    /** `onPressBack15`. */
    method OnPressBack15()
      requires Valid()
      modifies this
      ensures seeks == old(seeks) + [SkipTarget(old(currentTime), old(duration), -SkipSeconds)]
      ensures Valid() && Model() == Step(old(Model()), PressBack15)
    {
      var target := Clamp(currentTime - SkipSeconds, 0.0, duration);
      seeks := seeks + [target];
      StartControlTimer();
    }

    /** `onPressTogglePause`. */
    method OnPressTogglePause()
      requires Valid()
      modifies this
      ensures paused == !old(paused)
      ensures Valid() && Model() == Step(old(Model()), PressTogglePause)
    {
      paused := !paused;
      StartControlTimer();
    }

    /** `onPressForward15`. */
    method OnPressForward15()
      requires Valid()
      modifies this
      ensures seeks == old(seeks) + [SkipTarget(old(currentTime), old(duration), SkipSeconds)]
      ensures Valid() && Model() == Step(old(Model()), PressForward15)
    {
      var target := Clamp(currentTime + SkipSeconds, 0.0, duration);
      seeks := seeks + [target];
      StartControlTimer();
    }

    /** `onPressFullScreen`, as far as the player's own state goes. */
    method OnPressFullScreen()
      requires Valid()
      modifies this
      ensures fullscreen == !old(fullscreen)
      ensures Valid() && Model() == Step(old(Model()), PressFullScreen)
    {
      fullscreen := !fullscreen;
    }

    /** `hideControls`. */
    method HideControls()
      modifies this
      ensures !showControls
      ensures Model() == old(Model()).(showControls := false)
    {
      showControls := false;
    }

    /** The pending timeout, if any, comes due: it leaves the queue and calls
        `hideControls`. */
    method ControlTimerElapsed()
      requires Valid()
      modifies this
      ensures pendingTimers == {}
      ensures Valid() && Model() == Step(old(Model()), HideTimerElapsed)
    {
      if pendingTimers != {} {
        pendingTimers := {};
        HideControls();
      }
    }

    /** `startControlTimer`: clear the stored timeout, then schedule a fresh one. */
    method StartControlTimer()
      requires Valid()
      modifies this
      ensures pendingTimers == {controlTimer} && controlTimer !in old(pendingTimers)
      ensures Valid() && Model() == old(Model()).(timer := TimerRestart(old(Model()).timer))
    {
      if controlTimer != 0 {
        pendingTimers := pendingTimers - {controlTimer};
        controlTimer := 0;
      }
      controlTimer := nextTimerId;
      pendingTimers := pendingTimers + {controlTimer};
      nextTimerId := nextTimerId + 1;
    }

    /** `onSeekStart`: clear the stored timeout; the field keeps its handle. */
    method OnSeekStart()
      requires Valid()
      modifies this
      ensures pendingTimers == {} && controlTimer == old(controlTimer)
      ensures Valid() && Model() == Step(old(Model()), SeekStart)
    {
      pendingTimers := pendingTimers - {controlTimer};
    }

    /** `onSeekEnd`: restart the timer and seek to the time the bar reported. */
    method OnSeekEnd(time: real)
      requires Valid()
      modifies this
      ensures seeks == old(seeks) + [time] && pendingTimers == {controlTimer}
      ensures Valid() && Model() == Step(old(Model()), SeekEnd(time))
    {
      StartControlTimer();
      seeks := seeks + [time];
    }

    /** `onPressVideo`: flip the controls; once they show, restart the timer. */
    method OnPressVideo()
      requires Valid()
      modifies this
      ensures showControls == !old(showControls)
      ensures Valid() && Model() == Step(old(Model()), PressVideo)
    {
      showControls := !showControls;
      if showControls {
        StartControlTimer();
      }
    }

    /** `componentWillUnmount`: clear and forget the timeout, pause. */
    method ComponentWillUnmount()
      requires Valid()
      modifies this
      ensures pendingTimers == {} && controlTimer == 0 && paused
      ensures Valid() && Model() == Step(old(Model()), WillUnmount)
    {
      if controlTimer != 0 {
        pendingTimers := pendingTimers - {controlTimer};
        controlTimer := 0;
      }
      paused := true;
    }
  }
}
