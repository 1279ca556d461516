# Capture controller and result rendering of the sign-language classifier page

The page script `static/script.js` of the Arabic sign-language classification
demo does two things that carry logic of their own:

- **The capture controller.** Three globals — the camera `stream`, the
  `realtimeMode` flag and the `captureInterval` timer handle — are changed by
  the camera button (`toggleCamera`, which calls `stopCamera`), the realtime
  switch (`toggleRealtimeMode`, which calls `startRealtimeCapture` or
  `stopRealtimeCapture`) and the page-unload teardown. Module `Capture`
  (`capture.dfy`) models each handler as one atomic transition on an
  immutable `State`. The state also records what the browser holds for the
  script: the hardware tracks not yet stopped and the interval timers not yet
  cleared. Camera acquisition is an input: `Granted(stream)` or `Denied`.
  The controller invariant `Inv` says four things. A held timer implies an
  active stream and realtime mode on. The browser runs exactly the timer the
  script holds. The live tracks are exactly those of the held stream. Timer ids
  are positive, so a held handle is truthy to `if (captureInterval)`, and
  fresh. Every handler preserves it, so it holds after any sequence of
  events from the initial page.
- **The rendering decision of `displayPredictionResults`.** Module `Render`
  (`render.dfy`) computes what the result panel shows from a result record.
  The record has an optional prediction, an optional confidence, optional
  `top_predictions` and an optional note. The panel shows the main label (a
  dash as fallback) and the rounded percentage. It also shows the bar colour,
  the alternatives list or the "No other predictions available" message, and
  the "model not loaded" banners left on the page.

`options.dfy` holds the `Option` type standing for JavaScript's
`null`/`undefined` slots.

Two behaviours of the code are worth knowing. First, a confidence of 0.50
rounds to 50% and renders red: the orange threshold is strict (`> 50`,
`static/script.js` line 299), see `Render.TierBoundaries`. Second, the empty-state
message is chosen on the list *before* filtering. So a `top_predictions` list
whose only entry repeats the main prediction shows neither an item nor the
message (`Render.SoleDuplicateRendersNoItems`).

## Model

| member | source | states |
|---|---|---|
| Capture.StopRealtimeCapture | static/script.js:359-364 | the timer handle is always absent afterwards; with no handle nothing changes; with one, exactly that timer stops running; stream, flag and tracks are untouched; keeps the invariant with no timer left running |
| Capture.StartRealtimeCapture | static/script.js:347-356 | with a handle already held the state is unchanged (no duplicate timer); otherwise the one new timer is the only one running; stream, flag and tracks are untouched; keeps the invariant when a stream is active and realtime is on |
| Capture.StopCamera | static/script.js:107-116 | with no stream nothing changes; with one, the stream and the timer are gone, the stream's tracks are no longer live, and `realtimeMode` is unchanged; from an invariant state no track and no timer is left |
| Capture.ToggleCamera | static/script.js:73-104 | with a stream it is `stopCamera`; a denied start changes nothing (no dangling stream); a granted start holds the stream and, with realtime on, a timer; the realtime flag never changes; keeps the invariant |
| Capture.ToggleRealtimeMode | static/script.js:335-344 | the flag becomes the switch's value; a timer exists afterwards exactly when the switch is on and a stream is active; keeps the invariant |
| Capture.Unload | static/script.js:367-372 | after unload no stream is held, and from an invariant state no track is live and no timer runs |
| Capture.TickCaptures | static/script.js:351-355 | the interval callback captures only with a stream and realtime on, and in an invariant state a held timer's tick always captures |
| Capture.Step | static/script.js:35-50 | each user event (camera button, realtime switch, page unload) keeps the invariant |
| Capture.InitialSatisfiesInv | static/script.js:20-23 | the page starts with no stream, realtime off, no timer, and in an invariant state |
| Capture.RunPreservesInv | static/script.js:20-23 | the invariant holds after any sequence of events from an invariant state |
| Capture.ReachableTimerIsGuarded | static/script.js:351-355 | in every reachable state every tick of a held timer captures (an active stream with realtime on), and at most one timer runs |
| Capture.StopCameraIdempotent | static/script.js:107-116 | stopping the camera twice is stopping it once |
| Capture.RealtimeCaptureIdempotent | static/script.js:347-364 | starting realtime capture twice starts one timer; stopping twice is stopping once |
| Capture.StartAllocatesFreshTimer | static/script.js:351 | a new timer id is positive and never one the browser is already running |
| Capture.RealtimeOnBeforeCamera | static/script.js:96-98 | switching realtime on without a camera creates no timer; a later granted camera start creates one, a denied one changes nothing |
| Capture.CameraOffKeepsRealtimeFlag | static/script.js:74-78 | turning the camera off stops polling and releases every track, but leaves the realtime flag on, so restarting the camera resumes polling |
| Capture.StartThenStopReleasesAll | static/script.js:81-116 | starting then stopping the camera makes exactly the granted tracks live and then none, with no timer left |
| Render.MainLabel | static/script.js:289 | the main label is never empty: the prediction when present and non-empty, otherwise a dash |
| Render.MainPercent | static/script.js:292 | an absent confidence gives 0%, a present one its rounded percentage |
| Render.Round | static/script.js:292 | `Math.round`: the result is the integer within half a unit of `x`, a half going up |
| Render.Percent | static/script.js:292 | `Math.round(c * 100)` is the whole percentage within half a unit of `100 c`, and a confidence in [0, 1] gives a percentage in [0, 100] |
| Render.TierOf | static/script.js:297-303 | green exactly above 80, orange exactly in 51..80, red exactly at 50 and below |
| Render.Keep | static/script.js:310-312 | the filter predicate rejects an entry exactly when it is at index 0 and its label equals a present prediction; an absent prediction rejects nothing |
| Render.FilterFrom | static/script.js:310-312 | the index-aware filter never grows the list, and past index 0 it keeps every entry |
| Render.OtherPredictions | static/script.js:308-312 | the first entry is dropped exactly when its label equals the prediction; otherwise the list is kept whole |
| Render.ToItems | static/script.js:314-328 | one item per kept entry, in order, with its label and rounded percentage |
| Render.OthersOf | static/script.js:305-331 | the empty-state message appears exactly when `top_predictions` is absent or empty; otherwise the items of the filtered list |
| Render.UpdateBanners | static/script.js:263-286 | with a note, a banner carrying it is added only if none exists; without a note, the first banner is removed if any |
| Render.Display | static/script.js:261-332 | the panel never has an empty label and shows a present non-empty prediction; no confidence renders 0% and red, a confidence in [0, 1] a percentage in [0, 100]; the tier is green above 80, orange in 51..80, red at 50 and below; the empty-state message shows exactly when `top_predictions` is absent or empty, otherwise at most one entry is dropped; from at most one banner, a note leaves exactly one (carrying it when new) and no note leaves none |
| Render.TierOfConfidence | static/script.js:292-303 | green exactly for confidence at least 0.805, orange for [0.505, 0.805), red below 0.505 |
| Render.TierBoundaries | static/script.js:297-303 | 81 is green, 80 and 51 are orange, 50 is red; confidences 0.81, 0.50 and 0.49 give green, red and red |
| Render.OtherPredictionsKeepsRest | static/script.js:310-312 | at most one entry is removed, only index 0, only when it repeats the prediction; every other entry survives in order |
| Render.DuplicateAfterFirstIsKept | static/script.js:310-312 | `[A, A, B]` with prediction `A` renders `[A 90%, B 30%]` |
| Render.SoleDuplicateRendersNoItems | static/script.js:308-330 | a list whose only entry repeats the prediction renders an empty item list and no empty-state message |
| Render.EmptyResultRendersDefaults | static/script.js:289-330 | a result with nothing in it renders a dash, 0%, red and the empty-state message |
| Render.BannerCount | static/script.js:263-286 | from at most one banner, a result with a note leaves exactly one and a result without a note leaves none |
| Render.BannerKeepsFirstNote | static/script.js:268-279 | an existing banner keeps the note it was created with |
| Render.BannersSettleAfterOneRender | static/script.js:263-286 | rendering the same result again does not change the banners |

## Left out

- The WebSocket client (`connectWebSocket`, `sendImageForPrediction`) and the socket close in the unload handler: network I/O whose send-after-connect relies on a one-second timeout.
- `captureImage`, canvas drawing, `toDataURL`, `FileReader`, `fetch` to `/predict/`, `alert` and `console`: browser I/O. Only the guard of the interval callback is modelled, as `Capture.TickCaptures`.
- `handleFileSelect` and `handleFormSubmit`: DOM and fetch wiring whose only decision is that no file means no request.
- The one-second interval tick itself and the interleaving while `getUserMedia` is awaited: each handler is one atomic transition.
- Button labels, the capture button's `disabled` state, `video.srcObject`, the realtime status text, banner markup and element ids: presentation only. Banners are modelled by the notes they carry.
- Render.Round: models `Math.round` on exact reals, not on the IEEE double product `confidence * 100`, so results may differ from the page within one rounding error of a half.
- Render.MainPercent: a present but falsy confidence other than 0 (`NaN`) is not representable; the page shows 0% for it.
- Render.UpdateBanners: a `note` of JSON `null` is not distinguished; the page treats it as a present note, which the model would represent as `Some("null")`.
- Non-string labels and predictions, and entries without a confidence, are not represented.
