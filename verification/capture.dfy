/**
 * The camera / realtime-capture controller of the page script.
 *
 * The script keeps three globals: the camera `stream`, the `realtimeMode`
 * flag mirrored from the realtime switch, and the `captureInterval` timer
 * handle. Each event handler is modelled as one atomic transition on an
 * immutable `State`. Next to the script's globals the state records what the
 * browser holds on the script's behalf -- the hardware tracks that are still
 * live and the interval timers that are still running -- so that "nothing
 * leaks" can be stated.
 */
module Capture {
  import opened Options

  /** A granted camera stream; `tracks` are the hardware tracks it holds. */
  datatype Stream = Stream(tracks: set<nat>)

  /** What asking the browser for the camera yields: a stream, or an exception thrown before `stream` is assigned. */
  datatype Acquire = Granted(granted: Stream) | Denied

  datatype State = State(
    stream: Option<Stream>,
    realtimeMode: bool,
    captureInterval: Option<nat>,
    // Browser side: tracks not yet stopped, intervals not yet cleared, next interval id.
    liveTracks: set<nat>,
    runningTimers: set<nat>,
    nextTimer: nat)

  /** The page as loaded: no stream, realtime off, no timer. */
  const Initial: State := State(None, false, None, {}, {}, 1)

  /**
   * The controller invariant: a timer exists only while a stream is active
   * and realtime mode is on; the browser runs exactly the timer the script
   * holds and exactly the tracks of the stream it holds; timer ids are
   * positive (a handle of 0 would be falsy to `if (captureInterval)`) and fresh.
   */
  predicate Inv(s: State) {
    && (s.captureInterval.Some? ==> s.stream.Some? && s.realtimeMode)
    && s.runningTimers == (if s.captureInterval.Some? then {s.captureInterval.value} else {})
    && s.liveTracks == (if s.stream.Some? then s.stream.value.tracks else {})
    && 0 < s.nextTimer
    && (forall t :: t in s.runningTimers ==> 0 < t < s.nextTimer)
  }

  /** `stopRealtimeCapture`: clear the interval if there is one and forget its handle. */
  function StopRealtimeCapture(s: State): (r: State)
    ensures r.captureInterval.None?
    ensures s.captureInterval.None? ==> r == s
    ensures s.captureInterval.Some? ==> r.runningTimers == s.runningTimers - {s.captureInterval.value}
    ensures r.stream == s.stream && r.realtimeMode == s.realtimeMode && r.liveTracks == s.liveTracks
    ensures Inv(s) ==> Inv(r) && r.runningTimers == {}
  {
    match s.captureInterval
    case None => s
    case Some(t) => s.(captureInterval := None, runningTimers := s.runningTimers - {t})
  }

  /** `startRealtimeCapture`: start a 1-second interval unless one is already held. */
  function StartRealtimeCapture(s: State): (r: State)
    ensures s.captureInterval.Some? ==> r == s
    ensures r.captureInterval.Some?
    ensures Inv(s) ==> r.captureInterval.value in r.runningTimers
    ensures s.captureInterval.None? && Inv(s) ==> r.runningTimers == {r.captureInterval.value}
    ensures r.stream == s.stream && r.realtimeMode == s.realtimeMode && r.liveTracks == s.liveTracks
    ensures Inv(s) && s.stream.Some? && s.realtimeMode ==> Inv(r)
  {
    if s.captureInterval.Some? then s
    else
      var t := s.nextTimer;
      s.(captureInterval := Some(t), runningTimers := s.runningTimers + {t}, nextTimer := t + 1)
  }

  /** `stopCamera`: with a stream, stop its tracks, drop it and stop realtime capture; otherwise nothing. */
  function StopCamera(s: State): (r: State)
    ensures s.stream.None? ==> r == s
    ensures r.stream.None?
    ensures s.stream.Some? ==> r.captureInterval.None?
    ensures s.stream.Some? ==> r.liveTracks == s.liveTracks - s.stream.value.tracks
    ensures r.realtimeMode == s.realtimeMode
    ensures Inv(s) ==> Inv(r) && r.liveTracks == {} && r.runningTimers == {}
  {
    match s.stream
    case None => s
    case Some(st) =>
      StopRealtimeCapture(s.(stream := None, liveTracks := s.liveTracks - st.tracks))
  }

  /**
   * `toggleCamera`: with a stream, stop the camera. Without one, ask for the
   * camera; on success hold the stream and, if realtime mode is on, start
   * realtime capture; on failure change nothing.
   */
  function ToggleCamera(s: State, outcome: Acquire): (r: State)
    ensures s.stream.Some? ==> r == StopCamera(s)
    ensures s.stream.None? && outcome.Denied? ==> r == s
    ensures s.stream.None? && outcome.Granted? ==> r.stream == Some(outcome.granted)
    ensures s.stream.None? && outcome.Granted? && s.realtimeMode ==> r.captureInterval.Some?
    ensures r.realtimeMode == s.realtimeMode
    ensures Inv(s) ==> Inv(r)
  {
    if s.stream.Some? then StopCamera(s)
    else
      match outcome
      case Denied => s
      case Granted(st) =>
        var held := s.(stream := Some(st), liveTracks := s.liveTracks + st.tracks);
        if held.realtimeMode then StartRealtimeCapture(held) else held
  }

  /**
   * `toggleRealtimeMode`: copy the switch into `realtimeMode`; start realtime
   * capture when it is on and a stream is active, stop it otherwise.
   */
  function ToggleRealtimeMode(s: State, checked: bool): (r: State)
    ensures r.realtimeMode == checked
    ensures r.captureInterval.Some? <==> checked && s.stream.Some?
    ensures r.stream == s.stream && r.liveTracks == s.liveTracks
    ensures Inv(s) ==> Inv(r)
  {
    var s1 := s.(realtimeMode := checked);
    if checked && s1.stream.Some? then StartRealtimeCapture(s1) else StopRealtimeCapture(s1)
  }

  /** The `beforeunload` teardown, camera part: stop the camera (closing the socket is not modelled). */
  function Unload(s: State): (r: State)
    ensures r.stream.None?
    ensures Inv(s) ==> r.liveTracks == {} && r.runningTimers == {} && r.captureInterval.None?
  {
    StopCamera(s)
  }

  /** The guard of the interval callback: a tick captures a frame only with a stream and realtime mode on. */
  function TickCaptures(s: State): (b: bool)
    ensures s.stream.None? || !s.realtimeMode ==> !b
    ensures Inv(s) && s.captureInterval.Some? ==> b
  {
    s.stream.Some? && s.realtimeMode
  }

  /** The user-visible events that reach the controller. */
  datatype Event = CameraButton(outcome: Acquire) | RealtimeSwitch(checked: bool) | PageUnload

  function Step(s: State, e: Event): (r: State)
    ensures Inv(s) ==> Inv(r)
  {
    match e
    case CameraButton(outcome) => ToggleCamera(s, outcome)
    case RealtimeSwitch(checked) => ToggleRealtimeMode(s, checked)
    case PageUnload => Unload(s)
  }

  /** The state after handling `events` in order, starting from `s`. */
  function Run(s: State, events: seq<Event>): State
    decreases |events|
  {
    if |events| == 0 then s else Run(Step(s, events[0]), events[1..])
  }

  lemma InitialSatisfiesInv()
    ensures Inv(Initial)
    ensures Initial.stream.None? && !Initial.realtimeMode && Initial.captureInterval.None?
  {
  }

  /** Every handler keeps the controller invariant, so it holds after any sequence of events. */
  lemma {:induction false} RunPreservesInv(s: State, events: seq<Event>)
    requires Inv(s)
    ensures Inv(Run(s, events))
    decreases |events|
  {
    if |events| > 0 {
      var s' := Step(s, events[0]);
      assert Inv(s');
      RunPreservesInv(s', events[1..]);
    }
  }

  /**
   * In every state the page can reach, every tick of a held timer captures
   * (an active stream with realtime mode on), and at most one timer runs.
   */
  lemma ReachableTimerIsGuarded(events: seq<Event>)
    ensures var s := Run(Initial, events);
      && (s.captureInterval.Some? ==> TickCaptures(s))
      && |s.runningTimers| <= 1
      && (s.captureInterval.None? ==> s.runningTimers == {})
  {
    RunPreservesInv(Initial, events);
  }

  /** Stopping the camera a second time changes nothing. */
  lemma StopCameraIdempotent(s: State)
    ensures StopCamera(StopCamera(s)) == StopCamera(s)
  {
  }

  /** Starting realtime capture twice starts one timer; stopping it twice is stopping it once. */
  lemma RealtimeCaptureIdempotent(s: State)
    ensures StartRealtimeCapture(StartRealtimeCapture(s)) == StartRealtimeCapture(s)
    ensures StopRealtimeCapture(StopRealtimeCapture(s)) == StopRealtimeCapture(s)
  {
  }

  /** Starting realtime capture allocates a positive (truthy) timer id the browser is not already running. */
  lemma StartAllocatesFreshTimer(s: State)
    requires Inv(s) && s.captureInterval.None?
    ensures StartRealtimeCapture(s).captureInterval.value !in s.runningTimers
    ensures StartRealtimeCapture(s).captureInterval.value > 0
  {
  }

  /** Switching realtime on with no camera creates no timer; a later successful camera start does. */
  lemma RealtimeOnBeforeCamera(s: State, st: Stream)
    requires Inv(s) && s.stream.None?
    ensures var s1 := ToggleRealtimeMode(s, true);
      && s1.captureInterval.None? && s1.runningTimers == {}
      && ToggleCamera(s1, Granted(st)).captureInterval.Some?
      && ToggleCamera(s1, Denied) == s1
  {
  }

  /**
   * Turning the camera off stops polling but leaves the realtime flag on, so
   * turning the camera on again resumes polling without touching the switch.
   */
  lemma CameraOffKeepsRealtimeFlag(s: State, any: Acquire, st: Stream)
    requires Inv(s) && s.stream.Some? && s.realtimeMode
    ensures var off := ToggleCamera(s, any);
      && off.stream.None? && off.captureInterval.None? && off.realtimeMode
      && off.liveTracks == {} && off.runningTimers == {}
      && ToggleCamera(off, Granted(st)).captureInterval.Some?
  {
  }

  /** Starting the camera and then stopping it leaves no live track and no running timer. */
  lemma StartThenStopReleasesAll(s: State, st: Stream)
    requires Inv(s) && s.stream.None?
    ensures var on := ToggleCamera(s, Granted(st));
      && on.liveTracks == st.tracks
      && var off := ToggleCamera(on, Denied);
      off.liveTracks == {} && off.runningTimers == {} && off.stream.None?
  {
  }
}
