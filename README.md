# Video player seek and controls, modelled in Dafny

This project models the behavioural core of a React Native video player: the
seek bar under the video (`ProgressBar`) and the two platform variants of the
player component that owns it (`VideoPlayer` for Android and for iOS).

- **Seek bar** (`progress_bar.dfy`, module `ProgressBar`). The bar keeps a track
  width, an indicator width and a "moving" flag. Prop updates with the playback
  position move the indicator unless the flag is set. The four pan-responder
  callbacks are modelled as they are written:
  - grant reports `onSeekStart` and jumps to `x0`;
  - move sets the flag and follows `moveX`;
  - release clears the flag and reports one `onSeekEnd(width / trackWidth * duration)`;
  - terminate reports `onSeekCancel` only.

  Callbacks to the owner are recorded in a `notices` log.
- **Players** (`video_player_android.dfy`, `video_player_ios.dfy`). Each is a
  class over the component's state fields. It also holds the `controlTimer`
  handle, a model of the runtime's pending timeouts, and a log of every
  `seek` command sent to the media element.
- **Shared pieces** (`player_controls.dfy`, module `PlayerControls`):
  - lodash's `_.clamp` behind the skip buttons;
  - the aspect-ratio boxes;
  - the control-hiding timer as a handle plus a set of pending timeouts. 0 stands
    for `null`; React Native numbers its timeouts from 1.

Every imperative component has two layers:
- A class whose fields mirror the JavaScript fields and whose methods carry out
  each handler step by step.
- A value-level state (`Bar`, `State`), with `Step(state, event)` and
  `Run(state, events)` functions.

Each handler method ensures `Model() == Step(old(Model()), <event>)`. The helpers
the handlers share, `StartControlTimer` and `HideControls`, state their own effect
on the state. The constructors state the initial state. The properties the
component promises are proved as lemmas about `Step` and `Run`. They hold of the
class because of that link.

Time is not modelled as a clock. The 5000 ms `hideControls` timeout fires through
an explicit event, `HideTimerElapsed`: "the pending timeout comes due". Other
events, such as progress reports during playback, may come before it without
delaying it. It fires the pending timeout if there is one and does nothing
otherwise. Times, widths and volumes are `real`, which is exact.

The model keeps these quirks of the code:
- Grant does not set the moving flag.
- Nothing clamps `x0` or `moveX`.
- Terminate leaves the flag set.
- A zero track width is not guarded.
- Hiding the controls by a tap does not cancel the pending timer.
- The players never pass `onSeekCancel` to the bar. A cancelled drag therefore
  leaves the timer suspended until something restarts it, through any number of
  further drags (see `ScrubbingSuspendsHiding`).
- Only Android seeks to 0 on the first play.

## Model

| member | source | states |
|---|---|---|
| PlayerControls.Clamp | App/Components/VideoPlayer.android.js:128 | lodash `_.clamp`: the result is at least `lo` and at most `hi` on a non-empty range. It is `x` inside the range and the nearer bound outside it. An empty range gives `lo`. |
| PlayerControls.ClampIsNearest | App/Components/VideoPlayer.android.js:139 | On a non-empty range, no point of the range is nearer to `x` than the clamp. |
| PlayerControls.SkipTarget | App/Components/VideoPlayer.android.js:127-142 | A skip target is never negative and never past a non-negative duration. It equals `currentTime ± 15` when that is in range. |
| PlayerControls.PortraitBox | App/Components/VideoPlayer.android.js:82-85 | The portrait box is as wide as the screen and keeps the video's aspect ratio. |
| PlayerControls.LandscapeBox | App/Components/VideoPlayer.android.js:87-91 | The landscape box is as high as the screen is wide and keeps the video's aspect ratio. |
| PlayerControls.AtMostOnePending | App/Components/VideoPlayer.android.js:165-171 | Under the timer invariant at most one hide is pending, and it is the one `controlTimer` holds. |
| PlayerControls.TimerRestart | App/Components/VideoPlayer.android.js:165-171 | `startControlTimer` leaves exactly one pending timeout: a fresh handle, stored in the field. No timeout that was pending before survives. |
| PlayerControls.TimerClear | App/Components/VideoPlayer.android.js:173-175 | `onSeekStart` leaves nothing pending and keeps the (now stale) handle in the field. |
| PlayerControls.TimerDispose | App/Components/VideoPlayer.android.js:66-71 | Unmounting leaves nothing pending and the field null. |
| PlayerControls.TimerElapse | App/Components/VideoPlayer.android.js:170 | A timeout that fires leaves the queue, and the field keeps the spent handle. |
| ProgressBar.ProgressPercentage | App/Components/ProgressBar.js:118-124 | 0 when `current <= 0`. Otherwise the fraction `r` with `r * total == current`. A positive `current` needs a non-zero `total`. |
| ProgressBar.Mounted | App/Components/ProgressBar.js:51-56 | After mounting, the track spans the screen, the indicator is 0 with the flag clear, nothing has been reported, and a release would report time 0. |
| ProgressBar.ReleaseTime | App/Components/ProgressBar.js:107-109 | The reported time is 0 for an indicator at or before the start. Otherwise it is `r` with `r * trackWidth == indicator * duration`: the indicator's share of the track, scaled to the duration. |
| ProgressBar.Step | App/Components/ProgressBar.js:58-133 | One gesture or prop update appends at most one callback and never removes one. The appended callback is `onSeekEnd` exactly when the gesture is a release. While the moving flag is set, a prop update keeps the indicator and the flag. |
| ProgressBar.Run | App/Components/ProgressBar.js:130-133 | Any admissible sequence of gestures keeps the track width positive. |
| ProgressBar.PropsPlaceIndicator | App/Components/ProgressBar.js:58-63 | Outside a drag, a prop update sets the indicator to `trackWidth * currentTime / duration`, or to 0 when `currentTime <= 0`. |
| ProgressBar.DraggingIgnoresProps | App/Components/ProgressBar.js:59 | While the moving flag is set, any number of prop updates leave the indicator, the flag and the callbacks unchanged. |
| ProgressBar.DefaultPropsPlaceIndicatorAtZero | App/Components/ProgressBar.js:30-38 | The default props (`-0.01`, `0`) give percentage 0 and indicator 0. |
| ProgressBar.GrantDoesNotHoldIndicator | App/Components/ProgressBar.js:90-95 | Grant reports `onSeekStart` once and does not set the moving flag. A prop update after it still moves the indicator to the playback position, as if the tap had not happened. |
| ProgressBar.TerminateOnlyCancels | App/Components/ProgressBar.js:113-116 | Terminate appends `onSeekCancel` and leaves the indicator and the moving flag as they were. |
| ProgressBar.OneSeekEndPerRelease | App/Components/ProgressBar.js:104-111 | Callbacks are only appended. Any gesture sequence reports exactly one `onSeekEnd` per release, and none for moves, terminations or prop updates. |
| ProgressBar.ReleaseTimeInRange | App/Components/ProgressBar.js:107-109 | With the indicator on the track, the reported time lies in `[0, duration]`. |
| ProgressBar.ReleasePastTrackOvershoots | App/Components/ProgressBar.js:100 | Move does not clamp, so releasing past the end of the track reports a time beyond the duration. |
| ProgressBar.DragAcrossTrackSeeksToEnd | App/Components/ProgressBar.js:90-111 | A grant at coordinate 0, then a move to the coordinate `trackWidth`, then a release reports `onSeekStart` and `onSeekEnd(duration)`. |
| ProgressBar.ScrubScenario | App/Components/ProgressBar.js:104-111 | Track 200, duration 120: grant at 50 shows 0.25, a move to 100 shows 0.5, and release reports 60. |
| ProgressBar.ProgressBar.constructor | App/Components/ProgressBar.js:51-56 | After `componentWillMount` and `componentDidMount`, the indicator is 0, the flag is clear, the track is the screen width and nothing has been reported. |
| ProgressBar.ProgressBar.OnLayout | App/Components/ProgressBar.js:130-133 | Layout replaces the track width and nothing else. |
| ProgressBar.ProgressBar.ComponentWillReceiveProps | App/Components/ProgressBar.js:58-70 | The indicator moves only when the moving flag is clear. The props are stored. |
| ProgressBar.ProgressBar.OnPanResponderGrant | App/Components/ProgressBar.js:90-95 | Appends `onSeekStart` and sets the indicator to `x0`. |
| ProgressBar.ProgressBar.OnPanResponderMove | App/Components/ProgressBar.js:97-102 | Sets the flag and the indicator to `moveX`, and reports nothing. |
| ProgressBar.ProgressBar.OnPanResponderRelease | App/Components/ProgressBar.js:104-111 | Clears the flag and appends exactly one `onSeekEnd(percentage(width, trackWidth) * duration)`. |
| ProgressBar.ProgressBar.OnPanResponderTerminate | App/Components/ProgressBar.js:113-116 | Appends `onSeekCancel` and changes nothing else. |
| VideoPlayerAndroid.Substring0 | App/Components/VideoPlayer.android.js:87 | `substring(0, n)` has length `min(n, |s|)` and is a prefix of `s`. |
| VideoPlayerAndroid.IsLandscape | App/Components/VideoPlayer.android.js:87 | An orientation counts as landscape exactly when it has at least 9 characters and starts with `LANDSCAPE`. |
| VideoPlayerAndroid.OrientationReports | App/Components/VideoPlayer.android.js:87 | `LANDSCAPE-LEFT` and `LANDSCAPE-RIGHT` count as landscape. `PORTRAIT`, `PORTRAIT-UPSIDEDOWN` and `UNKNOWN` do not. |
| VideoPlayerAndroid.BoxFor | App/Components/VideoPlayer.android.js:80-93 | `PORTRAIT` gives a screen-wide box and a landscape report a screen-high box, both with the video's aspect ratio. Any other report keeps the box. |
| VideoPlayerAndroid.Initial | App/Components/VideoPlayer.android.js:26-50 | The initial state satisfies the invariant. It is paused on the poster and loading, with the controls hidden and `isFirstTime` set. No timer is set or pending and nothing has been sent to the media element. |
| VideoPlayerAndroid.EffectiveMute | App/Components/VideoPlayer.android.js:195 | A hardware-silent device always mutes the player. Otherwise the `muted` flag decides. |
| VideoPlayerAndroid.Step | App/Components/VideoPlayer.android.js:76-189 | Every handler keeps the timer invariant and a non-zero video size. |
| VideoPlayerAndroid.Run | App/Components/VideoPlayer.android.js:165-171 | Every sequence of events keeps the timer invariant. |
| VideoPlayerAndroid.AtMostOneHidePending | App/Components/VideoPlayer.android.js:165-171 | However the events interleave, at most one `hideControls` is pending. |
| VideoPlayerAndroid.StepSeeks | App/Components/VideoPlayer.android.js:102-118 | One event appends one seek if it is an end, skip or seek-bar release. A first play appends one more. No event removes a seek. |
| VideoPlayerAndroid.SeekCommandsAccounted | App/Components/VideoPlayer.android.js:112-118 | Over any sequence of events, the seek log grows by one per end, skip or seek-bar release, plus exactly one if the first play is in it. `isFirstTime` clears exactly when a play happens. |
| VideoPlayerAndroid.PlaySeeksToStartOnce | App/Components/VideoPlayer.android.js:113-116 | Any number of plays issue `seek(0)` once at most: on the first play ever. |
| VideoPlayerAndroid.PlaysSeekToZero | App/Components/VideoPlayer.android.js:114 | The seek the first play appends is `seek(0)`. |
| VideoPlayerAndroid.SkipsStayInRange | App/Components/VideoPlayer.android.js:127-142 | Back/forward-15 append one seek in `[0, duration]`, equal to `currentTime ∓ 15` when that is in range. They leave `currentTime` alone. The timer becomes `TimerRestart` of the old one: the old timeout is cleared and one fresh timeout is pending. |
| VideoPlayerAndroid.LoadAndEndPause | App/Components/VideoPlayer.android.js:95-105 | Load stores the duration, clears `loading` and pauses. End pauses, marks the video ended and issues `seek(0)`. |
| VideoPlayerAndroid.SoundControls | App/Components/VideoPlayer.android.js:120-125 | Toggle-sound flips `muted` when not hardware-silent and leaves it unchanged when silent, so it cannot unmute a silent device. In both cases the timer becomes `TimerRestart` of the old one. A volume change makes the effective mute true exactly when the volume is 0. The initial volume read leaves `muted` alone. |
| VideoPlayerAndroid.StepPassive | App/Components/VideoPlayer.android.js:161-163 | With nothing pending, an event that does not start the timer leaves the controls as they are and nothing pending. This covers the events that only clear the timer: a new drag and unmounting. |
| VideoPlayerAndroid.NothingPendingNothingHides | App/Components/VideoPlayer.android.js:161-171 | With nothing pending, no sequence of such events hides the controls. |
| VideoPlayerAndroid.ScrubbingSuspendsHiding | App/Components/VideoPlayer.android.js:173-175 | After `onSeekStart`, the controls stay until something restarts the timer. Further `onSeekStart` calls from later drags, cancelled ones included, do not end this, and neither does unmounting. |
| VideoPlayerAndroid.UnmountStopsHiding | App/Components/VideoPlayer.android.js:66-74 | Unmount pauses and nulls the handle, and no hide fires afterwards. |
| VideoPlayerAndroid.StepRestarts | App/Components/VideoPlayer.android.js:124 | Toggle-sound, the skips, toggle-pause and seek-end each restart the timer. |
| VideoPlayerAndroid.HideFiresOnce | App/Components/VideoPlayer.android.js:161-163 | The quiet period after a restart hides the controls. A second quiet period fires nothing. |
| VideoPlayerAndroid.BurstLeavesOneHide | App/Components/VideoPlayer.android.js:165-171 | After any burst of restarting interactions exactly one hide is pending, and no hide scheduled before the burst survives. The controls hide once after the last one. |
| VideoPlayerAndroid.PressVideoToggles | App/Components/VideoPlayer.android.js:182-189 | A tap flips `showControls`. When the tap shows them, the timer becomes `TimerRestart` of the old one. When it hides them, the timer is left exactly as it was, pending timeout included. |
| VideoPlayerAndroid.SeekEndRestartsAndSeeks | App/Components/VideoPlayer.android.js:177-180 | `onSeekEnd(t)` appends `seek(t)`. The timer becomes `TimerRestart` of the old one: the old timeout is cleared and one fresh timeout is pending. |
| VideoPlayerAndroid.VideoPlayer.constructor | App/Components/VideoPlayer.android.js:26-50 | The initial state: paused, ended, loading, controls hidden, `isFirstTime`, no timer. |
| VideoPlayerAndroid.VideoPlayer.ComponentDidMount | App/Components/VideoPlayer.android.js:52-53 | Sizes the box for portrait. |
| VideoPlayerAndroid.VideoPlayer.OnInitialVolume | App/Components/VideoPlayer.android.js:60-63 | The volume read after mounting sets only `hardwareSilent`. |
| VideoPlayerAndroid.VideoPlayer.OnVolumeChanged | App/Components/VideoPlayer.android.js:76-78 | Sets `hardwareSilent` and `muted` both to `volume == 0`. |
| VideoPlayerAndroid.VideoPlayer.UpdatePlayerDimensions | App/Components/VideoPlayer.android.js:80-93 | Sets the box as `BoxFor` says. |
| VideoPlayerAndroid.VideoPlayer.OnLoad | App/Components/VideoPlayer.android.js:95-100 | Stores the natural size, sizes the box for portrait, stores the duration, clears `loading` and pauses. |
| VideoPlayerAndroid.VideoPlayer.OnEnd | App/Components/VideoPlayer.android.js:102-105 | Pauses, marks the video ended and appends `seek(0)`. |
| VideoPlayerAndroid.VideoPlayer.OnProgress | App/Components/VideoPlayer.android.js:107-110 | Stores `currentTime`. |
| VideoPlayerAndroid.VideoPlayer.OnPressPlay | App/Components/VideoPlayer.android.js:112-118 | Appends `seek(0)` exactly when `isFirstTime`, clears it, plays and hides the poster. |
| VideoPlayerAndroid.VideoPlayer.OnPressToggleSound | App/Components/VideoPlayer.android.js:120-125 | Flips `muted` unless hardware-silent, and restarts the timer. |
| VideoPlayerAndroid.VideoPlayer.OnPressBack15 | App/Components/VideoPlayer.android.js:127-131 | Appends `seek(clamp(currentTime - 15, 0, duration))` and restarts the timer. |
| VideoPlayerAndroid.VideoPlayer.OnPressTogglePause | App/Components/VideoPlayer.android.js:133-136 | Flips `paused` and restarts the timer. |
| VideoPlayerAndroid.VideoPlayer.OnPressForward15 | App/Components/VideoPlayer.android.js:138-142 | Appends `seek(clamp(currentTime + 15, 0, duration))` and restarts the timer. |
| VideoPlayerAndroid.VideoPlayer.OnPressFullScreen | App/Components/VideoPlayer.android.js:152 | Flips `fullscreen`. |
| VideoPlayerAndroid.VideoPlayer.HideControls | App/Components/VideoPlayer.android.js:161-163 | Clears `showControls` and nothing else. |
| VideoPlayerAndroid.VideoPlayer.ControlTimerElapsed | App/Components/VideoPlayer.android.js:170 | The pending timeout, if any, leaves the queue and hides the controls. |
| VideoPlayerAndroid.VideoPlayer.StartControlTimer | App/Components/VideoPlayer.android.js:165-171 | Clears the stored timeout, then schedules one fresh timeout and stores it. |
| VideoPlayerAndroid.VideoPlayer.OnSeekStart | App/Components/VideoPlayer.android.js:173-175 | Clears the pending timeout and keeps the handle. |
| VideoPlayerAndroid.VideoPlayer.OnSeekEnd | App/Components/VideoPlayer.android.js:177-180 | Restarts the timer and appends `seek(time)`. |
| VideoPlayerAndroid.VideoPlayer.OnPressVideo | App/Components/VideoPlayer.android.js:182-189 | Flips `showControls`, and restarts the timer when they become visible. |
| VideoPlayerAndroid.VideoPlayer.ComponentWillUnmount | App/Components/VideoPlayer.android.js:66-74 | Clears and nulls the timer, and pauses. |
| VideoPlayerIos.Initial | App/Components/VideoPlayer.ios.js:26-50 | The initial state satisfies the invariant. It is paused on the poster and loading, with the controls hidden and the silent switch off. No timer is set or pending and nothing has been sent to the media element. |
| VideoPlayerIos.EffectiveMute | App/Components/VideoPlayer.ios.js:176 | A hardware-silent device always mutes the player. Otherwise the `muted` flag decides. |
| VideoPlayerIos.Step | App/Components/VideoPlayer.ios.js:78-170 | Every handler keeps the timer invariant. |
| VideoPlayerIos.Run | App/Components/VideoPlayer.ios.js:146-152 | Every sequence of events keeps the timer invariant. |
| VideoPlayerIos.AtMostOneHidePending | App/Components/VideoPlayer.ios.js:146-152 | However the events interleave, at most one `hideControls` is pending. |
| VideoPlayerIos.StepSeeks | App/Components/VideoPlayer.ios.js:89-136 | One event appends one seek exactly if it is an end, skip or seek-bar release. No event removes a seek. |
| VideoPlayerIos.SeekCommandsAccounted | App/Components/VideoPlayer.ios.js:109-112 | Over any sequence of events, the seek log grows by exactly one per end, skip or seek-bar release. Play never seeks. |
| VideoPlayerIos.PlayDoesNotSeek | App/Components/VideoPlayer.ios.js:109-112 | Play clears `paused` and `videoEnded` and changes nothing else. |
| VideoPlayerIos.EndRewindsThenSeekReportPauses | App/Components/VideoPlayer.ios.js:89-107 | End only issues `seek(0)`. A seek report of 0 pauses and marks the video ended; any other seek report changes nothing. |
| VideoPlayerIos.Back15NearStartLooksLikeEnd | App/Components/VideoPlayer.ios.js:103-107 | Back-15 in the first 15 s seeks to 0, and the report of that seek pauses and shows the poster as if the video had ended. |
| VideoPlayerIos.LoadPauses | App/Components/VideoPlayer.ios.js:82-87 | Load stores the duration, clears `loading` and pauses. |
| VideoPlayerIos.SkipsStayInRange | App/Components/VideoPlayer.ios.js:121-136 | Back/forward-15 append one seek in `[0, duration]`, equal to `currentTime ∓ 15` when that is in range. They leave `currentTime` alone. The timer becomes `TimerRestart` of the old one: the old timeout is cleared and one fresh timeout is pending. |
| VideoPlayerIos.SoundControls | App/Components/VideoPlayer.ios.js:114-119 | Toggle-sound flips `muted` when not hardware-silent and leaves it unchanged when silent, so it cannot unmute a silent device. In both cases the timer becomes `TimerRestart` of the old one. A volume change makes the effective mute true exactly when the volume is 0. The silent switch sets `silentSwitch` and `muted`. |
| VideoPlayerIos.RateChangeInFullscreen | App/Components/VideoPlayer.ios.js:97-101 | In fullscreen, a rate report sets `paused` to `rate == 0`. Press sets fullscreen and dismiss clears it. |
| VideoPlayerIos.RateChangesIgnoredAfterDismiss | App/Components/VideoPlayer.ios.js:199-202 | After the fullscreen player is dismissed, any number of rate reports change nothing. |
| VideoPlayerIos.StepPassive | App/Components/VideoPlayer.ios.js:142-144 | With nothing pending, an event that does not start the timer leaves the controls as they are and nothing pending. This covers the events that only clear the timer: a new drag and unmounting. |
| VideoPlayerIos.NothingPendingNothingHides | App/Components/VideoPlayer.ios.js:142-152 | With nothing pending, no sequence of such events hides the controls. |
| VideoPlayerIos.ScrubbingSuspendsHiding | App/Components/VideoPlayer.ios.js:154-156 | After `onSeekStart`, the controls stay until something restarts the timer. Further `onSeekStart` calls from later drags, cancelled ones included, do not end this, and neither does unmounting. |
| VideoPlayerIos.UnmountStopsHiding | App/Components/VideoPlayer.ios.js:67-76 | Unmount pauses and nulls the handle, and no hide fires afterwards. |
| VideoPlayerIos.StepRestarts | App/Components/VideoPlayer.ios.js:118 | Toggle-sound, the skips, toggle-pause and seek-end each restart the timer. |
| VideoPlayerIos.HideFiresOnce | App/Components/VideoPlayer.ios.js:142-144 | The quiet period after a restart hides the controls. A second quiet period fires nothing. |
| VideoPlayerIos.BurstLeavesOneHide | App/Components/VideoPlayer.ios.js:146-152 | After any burst of restarting interactions exactly one hide is pending, and no earlier one survives. The controls hide once after the last one. |
| VideoPlayerIos.PressVideoToggles | App/Components/VideoPlayer.ios.js:163-170 | A tap flips `showControls`. When the tap shows them, the timer becomes `TimerRestart` of the old one. When it hides them, the timer is left exactly as it was, pending timeout included. |
| VideoPlayerIos.SeekEndRestartsAndSeeks | App/Components/VideoPlayer.ios.js:158-161 | `onSeekEnd(t)` appends `seek(t)`. The timer becomes `TimerRestart` of the old one: the old timeout is cleared and one fresh timeout is pending. |
| VideoPlayerIos.VideoPlayer.constructor | App/Components/VideoPlayer.ios.js:26-50 | The initial state: paused, ended, loading, controls hidden, switch off, no timer. |
| VideoPlayerIos.VideoPlayer.ComponentDidMount | App/Components/VideoPlayer.ios.js:52-54 | Sizes a screen-wide box for the default 1920×1080 video. |
| VideoPlayerIos.VideoPlayer.OnSilentSwitch | App/Components/VideoPlayer.ios.js:56-58 | Sets `silentSwitch` and `muted` to the switch position. |
| VideoPlayerIos.VideoPlayer.OnVolumeChanged | App/Components/VideoPlayer.ios.js:78-80 | Sets `hardwareSilent` and `muted` both to `volume == 0`. |
| VideoPlayerIos.VideoPlayer.OnLoad | App/Components/VideoPlayer.ios.js:82-87 | Sizes the box for the natural size, stores the duration, clears `loading` and pauses. |
| VideoPlayerIos.VideoPlayer.OnEnd | App/Components/VideoPlayer.ios.js:89-91 | Appends `seek(0)` and changes nothing else. |
| VideoPlayerIos.VideoPlayer.OnProgress | App/Components/VideoPlayer.ios.js:93-95 | Stores `currentTime`. |
| VideoPlayerIos.VideoPlayer.OnPlaybackRateChange | App/Components/VideoPlayer.ios.js:97-101 | Sets `paused` to `rate == 0` in fullscreen, and leaves it alone otherwise. |
| VideoPlayerIos.VideoPlayer.OnSeek | App/Components/VideoPlayer.ios.js:103-107 | A seek time of 0 pauses and marks the video ended; other seek times change nothing. |
| VideoPlayerIos.VideoPlayer.OnPressPlay | App/Components/VideoPlayer.ios.js:109-112 | Plays, hides the poster, issues no seek and returns true. |
| VideoPlayerIos.VideoPlayer.OnPressToggleSound | App/Components/VideoPlayer.ios.js:114-119 | Flips `muted` unless hardware-silent, and restarts the timer. |
| VideoPlayerIos.VideoPlayer.OnPressBack15 | App/Components/VideoPlayer.ios.js:121-125 | Appends `seek(clamp(currentTime - 15, 0, duration))` and restarts the timer. |
| VideoPlayerIos.VideoPlayer.OnPressTogglePause | App/Components/VideoPlayer.ios.js:127-130 | Flips `paused` and restarts the timer. |
| VideoPlayerIos.VideoPlayer.OnPressForward15 | App/Components/VideoPlayer.ios.js:132-136 | Appends `seek(clamp(currentTime + 15, 0, duration))` and restarts the timer. |
| VideoPlayerIos.VideoPlayer.OnPressFullScreen | App/Components/VideoPlayer.ios.js:138-140 | Sets `fullscreen`. |
| VideoPlayerIos.VideoPlayer.OnFullscreenPlayerDidDismiss | App/Components/VideoPlayer.ios.js:199-202 | Clears `fullscreen`. |
| VideoPlayerIos.VideoPlayer.HideControls | App/Components/VideoPlayer.ios.js:142-144 | Clears `showControls` and nothing else. |
| VideoPlayerIos.VideoPlayer.ControlTimerElapsed | App/Components/VideoPlayer.ios.js:151 | The pending timeout, if any, leaves the queue and hides the controls. |
| VideoPlayerIos.VideoPlayer.StartControlTimer | App/Components/VideoPlayer.ios.js:146-152 | Clears the stored timeout, then schedules one fresh timeout and stores it. |
| VideoPlayerIos.VideoPlayer.OnSeekStart | App/Components/VideoPlayer.ios.js:154-156 | Clears the pending timeout and keeps the handle. |
| VideoPlayerIos.VideoPlayer.OnSeekEnd | App/Components/VideoPlayer.ios.js:158-161 | Restarts the timer and appends `seek(time)`. |
| VideoPlayerIos.VideoPlayer.OnPressVideo | App/Components/VideoPlayer.ios.js:163-170 | Flips `showControls`, and restarts the timer when they become visible. |
| VideoPlayerIos.VideoPlayer.ComponentWillUnmount | App/Components/VideoPlayer.ios.js:67-76 | Clears and nulls the timer, and pauses. |

## Left out

- Rendering. `render()`, JSX, styled components and `setNativeProps`
  (`_updateProgress`) are not modelled. The indicator width and the player box
  are kept as numbers, and nothing is drawn.
- Screen offset of the track. The gesture handlers take the gesture's `x0` and
  `moveX` directly as the indicator width, as the code does. The model does not
  relate these screen coordinates to the track's position on screen. The track
  sits inside a container with a 20-point horizontal margin, so a finger on the
  visible start of the track gives a coordinate of at least 20, not 0.
- Zero-width layouts and zero durations. `ProgressBar.Run` admits only layouts of
  positive width and prop updates whose positive time comes with a non-zero
  duration. It excludes them even while dragging, when the code does not divide.
  Sequences that contain such events are outside `Run` and its lemmas, although
  the code handles some of them: a prop update during a drag, or a release with
  the indicator at 0 on a zero-width track. The one-step `Step` admits them
  whenever its division is defined.
- The media element is assumed mounted. The `<Video>` element, whose ref the
  seeking handlers use, is rendered only while the `loadPlayer` prop is set. The
  buttons and the seek bar do not depend on that prop. Every seeking handler is
  modelled as if the element were there: Android's first play, back/forward-15
  and `onSeekEnd` on both platforms. The model does not capture the TypeError
  these handlers raise when `loadPlayer` is cleared. Android's first play would
  throw before it clears `isFirstTime`. The skips would throw before they restart
  the timer. `onSeekEnd` would throw after it restarts the timer and before it
  seeks.
- `PanResponder` wiring. The `onStartShouldSet…`/`onMoveShouldSet…` predicates
  always return true, so each gesture callback is a method that takes its
  coordinate directly.
- Platform services are left out: orientation locking, `StatusBar.setHidden`,
  and adding and removing the volume and silent-switch listeners. The values
  these services report are parameters of the handlers: the volume, the switch
  position and the orientation string.
- The volume read after mounting. This promise is an explicit event,
  `InitialVolume`, on Android.
- Parent callbacks. The player's `onFullScreen` prop callback is not recorded.
  The Android fullscreen press flips `fullscreen`. Its asynchronous orientation
  query is the separate `UpdatePlayerDimensions` call it leads to.
- The `connected` state field, the poster image and the `hh:mm:ss` time label
  are left out. None of them changes behaviour.
- Clock time is left out. The 5000 ms delay appears only as the
  `HideTimerElapsed` event. React `setState` batching is not modelled: each
  update is immediate. A `setState` callback (`onPressVideo`,
  `onPressFullScreen`) runs right after its update.
- IEEE floating point is left out: NaN, infinities from division by zero, and
  rounding. Divisions carry a non-zero precondition instead. The unmodelled cases
  are a positive `currentTime` with zero duration, a positive indicator on a
  zero-width track, and a zero natural width.
- Media-engine commands other than `seek` are not logged. The engine receives
  `paused` and `muted` as props, and the model keeps them as state fields.
- VideoPlayerAndroid.VideoPlayer.OnLoad: requires a non-zero natural height as
  well as width. The handler divides only by the width, but it stores the size,
  and a later landscape report divides by the height.
- ProgressBar.ProgressBar.constructor: merges `componentWillMount` and
  `componentDidMount` into one step. Nothing the model covers can happen
  between them.
