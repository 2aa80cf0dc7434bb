/** The seek bar under the video: it shows playback progress as the width of an
    indicator over a track, and turns a touch gesture on the track into a seek.
    The indicator follows the `currentTime`/`duration` props unless the user is
    dragging, follows the finger while a gesture is in progress, and on release
    reports the time under the indicator through `onSeekEnd`. */
module ProgressBar {

  /** The props the bar is mounted with when its owner passes none. */
  const DefaultCurrentTime: real := -0.01
  const DefaultDuration: real := 0.0

  /** A call the bar makes to one of its owner's callbacks. */
  datatype Notice = SeekStart | SeekEnd(time: real) | SeekCancel

  /** `_getProgressPercentage`: `current / total`, or 0 when `current` is not positive.
      Nothing guards `total`, so a positive `current` needs a non-zero `total`. */
  function ProgressPercentage(current: real, total: real): (r: real)
    requires current > 0.0 ==> total != 0.0
    ensures current <= 0.0 ==> r == 0.0
    ensures current > 0.0 ==> r * total == current
  {
    if current > 0.0 then current / total else 0.0
  }

  /** The bar's state: the track width (`this.width`), the indicator width
      (`_processStyle.style.width`), the dragging flag (`state.progressBarMoving`),
      the current props, and every callback made so far, oldest first. */
  datatype Bar = Bar(
    trackWidth: real,
    indicator: real,
    moving: bool,
    currentTime: real,
    duration: real,
    notices: seq<Notice>)

  /** What reaches the bar: a layout pass, new props, and the four pan-responder
      callbacks with the gesture coordinate they read. */
  datatype Gesture =
    | Layout(width: real)
    | ReceiveProps(currentTime: real, duration: real)
    | Grant(x0: real)
    | Move(moveX: real)
    | Release
    | Terminate

  /** The state right after `componentDidMount`: the track spans the screen and the
      indicator, set to 0 by `componentWillMount`, has not moved. */
  function Mounted(screenWidth: real, currentTime: real, duration: real): (r: Bar)
    ensures r.trackWidth == screenWidth && r.indicator == 0.0 && !r.moving
    ensures r.notices == [] && ReleaseTime(r) == 0.0
  {
    Bar(screenWidth, 0.0, false, currentTime, duration, [])
  }

  /** The time `onPanResponderRelease` reports: the indicator's share of the track,
      times the duration. */
  function ReleaseTime(b: Bar): (r: real)
    requires b.indicator > 0.0 ==> b.trackWidth != 0.0
    ensures b.indicator <= 0.0 ==> r == 0.0
    ensures b.indicator > 0.0 ==> r * b.trackWidth == b.indicator * b.duration
  {
    var p := ProgressPercentage(b.indicator, b.trackWidth);
    assert b.indicator > 0.0 ==> p * b.duration * b.trackWidth == b.indicator * b.duration by {
      if b.indicator > 0.0 {
        calc {
          p * b.duration * b.trackWidth;
          (p * b.trackWidth) * b.duration;
          b.indicator * b.duration;
        }
      }
    }
    p * b.duration
  }

  /** The divisions a gesture performs are by non-zero values. */
  predicate Defined(b: Bar, g: Gesture) {
    match g
    case ReceiveProps(c, d) => !b.moving && c > 0.0 ==> d != 0.0
    case Release => b.indicator > 0.0 ==> b.trackWidth != 0.0
    case _ => true
  }

  /** The effect of one gesture or prop update on the bar. Callbacks are only appended,
      at most one per gesture, and a seek is reported exactly on release; while the
      moving flag is set, prop updates leave the indicator where the finger put it. */
  function Step(b: Bar, g: Gesture): (r: Bar)
    requires Defined(b, g)
    ensures b.notices <= r.notices && |r.notices| <= |b.notices| + 1
    ensures (|r.notices| > |b.notices| && r.notices[|b.notices|].SeekEnd?) <==> g.Release?
    ensures g.ReceiveProps? && b.moving ==> r.indicator == b.indicator && r.moving
  {
    match g
    case Layout(w) => b.(trackWidth := w)
    case ReceiveProps(c, d) =>
      var indicator := if b.moving then b.indicator else b.trackWidth * ProgressPercentage(c, d);
      b.(indicator := indicator, currentTime := c, duration := d)
    case Grant(x0) => b.(indicator := x0, notices := b.notices + [SeekStart])
    case Move(x) => b.(moving := true, indicator := x)
    case Release => b.(moving := false, notices := b.notices + [SeekEnd(ReleaseTime(b))])
    case Terminate => b.(notices := b.notices + [SeekCancel])
  }

  /** A gesture that keeps every division of later gestures defined, on a track of
      positive width. */
  predicate Admissible(g: Gesture) {
    match g
    case Layout(w) => w > 0.0
    case ReceiveProps(c, d) => c > 0.0 ==> d != 0.0
    case _ => true
  }

  predicate AllAdmissible(gs: seq<Gesture>) {
    forall i | 0 <= i < |gs| :: Admissible(gs[i])
  }

  /** The bar after a sequence of gestures. */
  function Run(b: Bar, gs: seq<Gesture>): (r: Bar)
    requires b.trackWidth > 0.0 && AllAdmissible(gs)
    ensures r.trackWidth > 0.0
    decreases |gs|
  {
    if gs == [] then b else Run(Step(b, gs[0]), gs[1..])
  }

  function CountSeekEnds(ns: seq<Notice>): nat {
    if ns == [] then 0 else CountSeekEnds(ns[..|ns| - 1]) + (if ns[|ns| - 1].SeekEnd? then 1 else 0)
  }

  function CountReleases(gs: seq<Gesture>): nat {
    if gs == [] then 0 else (if gs[0].Release? then 1 else 0) + CountReleases(gs[1..])
  }

  /** Callbacks are only ever appended, and a sequence of gestures reports exactly one
      `onSeekEnd` per release it contains: moves, terminations and prop updates
      never seek. */
  lemma {:induction false} OneSeekEndPerRelease(b: Bar, gs: seq<Gesture>)
    requires b.trackWidth > 0.0 && AllAdmissible(gs)
    ensures |b.notices| <= |Run(b, gs).notices|
    ensures Run(b, gs).notices[..|b.notices|] == b.notices
    ensures CountSeekEnds(Run(b, gs).notices) == CountSeekEnds(b.notices) + CountReleases(gs)
    decreases |gs|
  {
    if gs != [] {
      var b' := Step(b, gs[0]);
      assert AllAdmissible(gs[1..]) by {
        forall i | 0 <= i < |gs[1..]| ensures Admissible(gs[1..][i]) {
          assert gs[1..][i] == gs[i + 1];
        }
      }
      OneSeekEndPerRelease(b', gs[1..]);
      var ns := Run(b', gs[1..]).notices;
      assert ns[..|b'.notices|] == b'.notices;
      assert b'.notices[..|b.notices|] == b.notices;
      assert ns[..|b.notices|] == ns[..|b'.notices|][..|b.notices|];
      match gs[0]
      case Release =>
        assert b'.notices[..|b'.notices| - 1] == b.notices;
      case Grant(_) =>
        assert b'.notices[..|b'.notices| - 1] == b.notices;
      case Terminate =>
        assert b'.notices[..|b'.notices| - 1] == b.notices;
      case _ =>
    }
  }

  predicate AllReceiveProps(gs: seq<Gesture>) {
    forall i | 0 <= i < |gs| :: gs[i].ReceiveProps?
  }

  /** While the user drags, any number of prop updates leave the indicator, the
      dragging flag and the callbacks alone. */
  lemma {:induction false} DraggingIgnoresProps(b: Bar, gs: seq<Gesture>)
    requires b.trackWidth > 0.0 && AllAdmissible(gs) && AllReceiveProps(gs)
    requires b.moving
    ensures Run(b, gs).indicator == b.indicator
    ensures Run(b, gs).moving
    ensures Run(b, gs).notices == b.notices
    decreases |gs|
  {
    if gs != [] {
      assert AllAdmissible(gs[1..]) && AllReceiveProps(gs[1..]) by {
        forall i | 0 <= i < |gs[1..]| ensures Admissible(gs[1..][i]) && gs[1..][i].ReceiveProps? {
          assert gs[1..][i] == gs[i + 1];
        }
      }
      DraggingIgnoresProps(Step(b, gs[0]), gs[1..]);
    }
  }

  /** Outside a drag a prop update puts the indicator at the played share of the track. */
  lemma PropsPlaceIndicator(b: Bar, c: real, d: real)
    requires !b.moving && (c > 0.0 ==> d != 0.0)
    ensures c <= 0.0 ==> Step(b, ReceiveProps(c, d)).indicator == 0.0
    ensures c > 0.0 ==> Step(b, ReceiveProps(c, d)).indicator * d == b.trackWidth * c
  {
  }

  /** The default props place the indicator at 0, whatever the track width. */
  lemma DefaultPropsPlaceIndicatorAtZero(b: Bar)
    requires !b.moving
    ensures ProgressPercentage(DefaultCurrentTime, DefaultDuration) == 0.0
    ensures Step(b, ReceiveProps(DefaultCurrentTime, DefaultDuration)).indicator == 0.0
  {
  }

  /** Grant reports `onSeekStart` and puts the indicator under the finger, but does
      not mark a drag: a prop update before the first move still moves the indicator
      back to the playback position. */
  lemma GrantDoesNotHoldIndicator(b: Bar, x0: real, c: real, d: real)
    requires !b.moving && (c > 0.0 ==> d != 0.0)
    ensures Step(b, Grant(x0)).notices == b.notices + [SeekStart]
    ensures !Step(b, Grant(x0)).moving
    ensures Step(Step(b, Grant(x0)), ReceiveProps(c, d)).indicator
            == Step(b, ReceiveProps(c, d)).indicator
  {
  }

  /** Terminate reports `onSeekCancel` only: indicator and dragging flag stay as they were. */
  lemma TerminateOnlyCancels(b: Bar)
    ensures Step(b, Terminate).notices == b.notices + [SeekCancel]
    ensures Step(b, Terminate).indicator == b.indicator
    ensures Step(b, Terminate).moving == b.moving
  {
  }

  /** With the indicator on the track, the reported time lies between 0 and the duration. */
  lemma ReleaseTimeInRange(b: Bar)
    requires 0.0 <= b.indicator <= b.trackWidth && b.trackWidth > 0.0 && 0.0 <= b.duration
    ensures 0.0 <= ReleaseTime(b) <= b.duration
  {
    var p := ProgressPercentage(b.indicator, b.trackWidth);
    assert 0.0 <= p <= 1.0 by {
      if b.indicator > 0.0 {
        assert p * b.trackWidth == b.indicator;
      }
    }
    assert p * b.duration <= 1.0 * b.duration;
  }

  /** Nothing clamps the finger position: released past the end of the track, the bar
      reports a time beyond the duration. */
  lemma ReleasePastTrackOvershoots(b: Bar)
    requires 0.0 < b.trackWidth < b.indicator && 0.0 < b.duration
    ensures ReleaseTime(b) > b.duration
  {
    var p := ProgressPercentage(b.indicator, b.trackWidth);
    assert p > 1.0 by {
      assert p * b.trackWidth == b.indicator;
    }
    assert p * b.duration > 1.0 * b.duration;
  }

  /** A grant at coordinate 0, a move to the coordinate equal to the track width and a
      release report the whole duration. (The coordinates are the gesture's own values;
      the track's offset on screen is not part of the bar's state.) */
  lemma DragAcrossTrackSeeksToEnd(b: Bar)
    requires b.trackWidth > 0.0
    ensures Run(b, [Grant(0.0), Move(b.trackWidth), Release]).notices
            == b.notices + [SeekStart, SeekEnd(b.duration)]
    ensures !Run(b, [Grant(0.0), Move(b.trackWidth), Release]).moving
  {
    var b1 := Step(b, Grant(0.0));
    var b2 := Step(b1, Move(b.trackWidth));
    assert ProgressPercentage(b2.indicator, b2.trackWidth) == 1.0 by {
      assert b2.indicator == b2.trackWidth;
    }
    var b3 := Step(b2, Release);
    assert b3.notices == b.notices + [SeekStart, SeekEnd(b.duration)];
    RunThree(b, Grant(0.0), Move(b.trackWidth), Release);
  }

  /** Three gestures in a row are three steps. */
  lemma RunThree(b: Bar, g1: Gesture, g2: Gesture, g3: Gesture)
    requires b.trackWidth > 0.0 && Admissible(g1) && Admissible(g2) && Admissible(g3)
    ensures Run(b, [g1, g2, g3]) == Run(Step(Step(b, g1), g2), [g3])
  {
    assert [g1, g2, g3][1..] == [g2, g3];
    assert [g2, g3][1..] == [g3];
  }

  /** A 200-wide track, a 120 s video: grabbing at 50 shows a quarter, moving to 100
      shows half, and letting go seeks to 60 s. */
  lemma ScrubScenario(n: seq<Notice>)
    ensures Step(Bar(200.0, 0.0, false, 0.0, 120.0, n), Grant(50.0)).indicator / 200.0 == 0.25
    ensures Step(Step(Bar(200.0, 0.0, false, 0.0, 120.0, n), Grant(50.0)), Move(100.0)).indicator / 200.0 == 0.5
    ensures Run(Bar(200.0, 0.0, false, 0.0, 120.0, n), [Grant(50.0), Move(100.0), Release]).notices
            == n + [SeekStart, SeekEnd(60.0)]
  {
    RunThree(Bar(200.0, 0.0, false, 0.0, 120.0, n), Grant(50.0), Move(100.0), Release);
  }

  /** The component itself. Its fields are the ones the JavaScript class mutates; the
      owner's callbacks are recorded in `notices` instead of being called. */
  class ProgressBar {
    var trackWidth: real
    var indicatorWidth: real
    var progressBarMoving: bool
    var currentTime: real
    var duration: real
    var notices: seq<Notice>

    function Model(): Bar
      reads this
    {
      Bar(trackWidth, indicatorWidth, progressBarMoving, currentTime, duration, notices)
    }

    /** Mounting with the given props: `componentWillMount` zeroes the indicator,
        `componentDidMount` sets the track width to the screen width. */
    constructor (screenWidth: real, currentTime: real, duration: real)
      ensures Model() == Mounted(screenWidth, currentTime, duration)
    {
      this.currentTime := currentTime;
      this.duration := duration;
      progressBarMoving := false;
      indicatorWidth := 0.0;
      trackWidth := screenWidth;
      notices := [];
    }

    /** The track's `onLayout`: only the track width changes. */
    method OnLayout(width: real)
      modifies this
      ensures trackWidth == width
      ensures Model() == Step(old(Model()), Layout(width))
    {
      trackWidth := width;
    }

    /** `componentWillReceiveProps`: outside a drag the indicator moves to the played
        share of the track; during one it stays put. */
    method ComponentWillReceiveProps(nextCurrentTime: real, nextDuration: real)
      requires !progressBarMoving && nextCurrentTime > 0.0 ==> nextDuration != 0.0
      modifies this
      ensures old(progressBarMoving) ==> indicatorWidth == old(indicatorWidth)
      ensures Model() == Step(old(Model()), ReceiveProps(nextCurrentTime, nextDuration))
    {
      if !progressBarMoving {
        indicatorWidth := trackWidth * ProgressPercentage(nextCurrentTime, nextDuration);
      }
      currentTime, duration := nextCurrentTime, nextDuration;
    }

    /** `onPanResponderGrant`: report `onSeekStart` and jump to the touch point. */
    method OnPanResponderGrant(x0: real)
      modifies this
      ensures notices == old(notices) + [SeekStart] && indicatorWidth == x0
      ensures Model() == Step(old(Model()), Grant(x0))
    {
      notices := notices + [SeekStart];
      indicatorWidth := x0;
    }

    /** `onPanResponderMove`: mark the drag and follow the finger, reporting nothing. */
    method OnPanResponderMove(moveX: real)
      modifies this
      ensures progressBarMoving && indicatorWidth == moveX && notices == old(notices)
      ensures Model() == Step(old(Model()), Move(moveX))
    {
      progressBarMoving := true;
      indicatorWidth := moveX;
    }

    /** `onPanResponderRelease`: end the drag and report one `onSeekEnd` with the time
        under the indicator. */
    method OnPanResponderRelease()
      requires indicatorWidth > 0.0 ==> trackWidth != 0.0
      modifies this
      ensures !progressBarMoving
      ensures notices == old(notices) + [SeekEnd(ReleaseTime(old(Model())))]
      ensures Model() == Step(old(Model()), Release)
    {
      ghost var before := Model();
      progressBarMoving := false;
      var time := ProgressPercentage(indicatorWidth, trackWidth) * duration;
      assert time == ReleaseTime(before);
      notices := notices + [SeekEnd(time)];
    }

    /** `onPanResponderTerminate`: report `onSeekCancel` and nothing else. */
    method OnPanResponderTerminate()
      modifies this
      ensures notices == old(notices) + [SeekCancel]
      ensures Model() == Step(old(Model()), Terminate)
    {
      notices := notices + [SeekCancel];
    }
  }
}
