/** Pieces both platform players share: the clamp behind the skip buttons, the
    player box that keeps the video's aspect ratio, and the control-hiding timer. */
module PlayerControls {

  /** Seconds moved by the back-15 and forward-15 buttons. */
  const SkipSeconds: real := 15.0

  /** lodash `_.clamp(x, lo, hi)`: the upper bound is applied first, then the lower one,
      so an empty range (`hi < lo`) yields `lo`. */
  function Clamp(x: real, lo: real, hi: real): (r: real)
    ensures lo <= r
    ensures lo <= hi ==> r <= hi
    ensures lo <= x <= hi ==> r == x
    ensures x < lo || hi < lo ==> r == lo
    ensures lo <= hi < x ==> r == hi
  {
    var capped := if x <= hi then x else hi;
    if capped >= lo then capped else lo
  }

  /** On a non-empty range the clamp is the point of the range nearest to `x`. */
  lemma ClampIsNearest(x: real, lo: real, hi: real, y: real)
    requires lo <= y <= hi
    ensures lo <= Clamp(x, lo, hi) <= hi
    ensures Dist(Clamp(x, lo, hi), x) <= Dist(y, x)
  {
  }

  function Dist(a: real, b: real): real {
    if a <= b then b - a else a - b
  }

  /** The seek target of a skip button: `_.clamp(currentTime + delta, 0, duration)`. */
  function SkipTarget(currentTime: real, duration: real, delta: real): (r: real)
    ensures 0.0 <= r
    ensures 0.0 <= duration ==> r <= duration
    ensures 0.0 <= currentTime + delta <= duration ==> r == currentTime + delta
  {
    Clamp(currentTime + delta, 0.0, duration)
  }

  /** Width and height, of the video or of the box the player draws it in. */
  datatype Size = Size(width: real, height: real)

  /** The portrait box: as wide as the screen, with the video's aspect ratio. */
  function PortraitBox(video: Size, screenWidth: real): (r: Size)
    requires video.width != 0.0
    ensures r.width == screenWidth
    ensures r.height * video.width == video.height * r.width
  {
    var height := (video.height / video.width) * screenWidth;
    assert height * video.width == video.height * screenWidth by {
      calc {
        height * video.width;
        (video.height / video.width) * video.width * screenWidth;
        video.height * screenWidth;
      }
    }
    Size(screenWidth, height)
  }

  /** The landscape box: as high as the screen is wide, with the video's aspect ratio. */
  function LandscapeBox(video: Size, screenWidth: real): (r: Size)
    requires video.height != 0.0
    ensures r.height == screenWidth
    ensures r.width * video.height == video.width * r.height
  {
    var width := (video.width / video.height) * screenWidth;
    assert width * video.height == video.width * screenWidth by {
      calc {
        width * video.height;
        (video.width / video.height) * video.height * screenWidth;
        video.width * screenWidth;
      }
    }
    Size(width, screenWidth)
  }

  /** The player's `controlTimer` field together with the timeouts the JavaScript
      runtime holds for this player. `handle` 0 stands for `null` (React Native numbers
      its timeouts from 1, so a scheduled handle is always truthy); `pending` are the
      scheduled 5000 ms calls of `hideControls` that have neither fired nor been
      cleared; `nextId` is the handle the next `setTimeout` returns. */
  datatype Timer = Timer(handle: nat, pending: set<nat>, nextId: nat)

  /** No timer yet: `controlTimer = null`. */
  const NoTimer: Timer := Timer(0, {}, 1)

  /** Only the timeout stored in `controlTimer` can be pending, and fresh handles are unused. */
  ghost predicate TimerValid(t: Timer) {
    && 0 < t.nextId
    && t.handle < t.nextId
    && 0 !in t.pending
    && t.pending <= {t.handle}
  }

  lemma AtMostOnePending(t: Timer)
    requires TimerValid(t)
    ensures |t.pending| <= 1
    ensures t.pending != {} <==> t.handle in t.pending
  {
    if t.pending != {} {
      assert t.pending == {t.handle};
    }
  }

  /** `startControlTimer`: clear the stored timeout if there is one, then schedule a new one. */
  function TimerRestart(t: Timer): (r: Timer)
    requires TimerValid(t)
    ensures TimerValid(r)
    ensures r.handle != 0 && r.pending == {r.handle}
    ensures r.handle !in t.pending && r.handle != t.handle
    ensures t.nextId <= r.handle
  {
    var cleared := if t.handle != 0 then t.pending - {t.handle} else t.pending;
    Timer(t.nextId, cleared + {t.nextId}, t.nextId + 1)
  }

  /** `clearTimeout(this.controlTimer)` without resetting the field (`onSeekStart`). */
  function TimerClear(t: Timer): (r: Timer)
    requires TimerValid(t)
    ensures TimerValid(r)
    ensures r.pending == {}
    ensures r.handle == t.handle
  {
    t.(pending := t.pending - {t.handle})
  }

  /** `componentWillUnmount`: clear the stored timeout if there is one and set the field to null. */
  function TimerDispose(t: Timer): (r: Timer)
    requires TimerValid(t)
    ensures TimerValid(r)
    ensures r.pending == {} && r.handle == 0
  {
    var cleared := if t.handle != 0 then t.pending - {t.handle} else t.pending;
    Timer(0, cleared, t.nextId)
  }

  /** The pending timeout, if any, comes due: the runtime drops it and calls `hideControls`.
      The field keeps the spent handle. */
  function TimerElapse(t: Timer): (r: Timer)
    requires TimerValid(t)
    ensures TimerValid(r)
    ensures r.pending == {}
    ensures r.handle == t.handle
  {
    t.(pending := {})
  }
}
