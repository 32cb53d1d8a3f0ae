# 10 m distance check: the guidance engine

The program serves a single web page that guides a walker to a point exactly
10 m from where they started. The page's script subscribes to the device's
location sensor. The first fix becomes the reference point. Every later fix
is turned into a distance from that point and sorted into one of three bands
around 10 m, with a tolerance of 0.5 m:

- inside the window: "PERFECT - STOP", with a beep at most once every 800 ms;
- short of it: "MOVE AHEAD";
- past it: "MOVE BACK".

The user can save the distance currently shown to a log and stop or reset the
session. This project models that script, `417M.py:135-269`, in Dafny.

- `guidance.dfy`, module `Guidance`: the constants, the three-way band
  decision `Classify` and the debounce test `BeepDue`.
- `engine.dfy`, module `Engine`: the session as a value (`Session`).
  - It holds the reference point, the subscription id, the last beep time,
    the log, what the page shows, whether audio is armed, and the platform's
    live subscriptions.
  - It has one function per handler: `Capture`, `OnFix`, `Guide`, `Save`,
    `Stop`, `OnError`.
  - It defines the invariant `Valid` that every reachable session keeps.
- `runs.dfy`, module `Runs`: sessions over time.
  - An `Event` is a button press or a sensor callback.
  - `Step` applies one event and `Run` applies a sequence.
  - `Enabled` says when an event can happen: the start button only while it
    is shown, and callbacks only while a subscription is live.
  - The lemmas hold across every run: the log only grows, beeps are spaced,
    a reference is logged once, and validity is kept.
- `tracker.dfy`, module `Tracker`: class `TrackingSession`.
  - Its fields are the script's module-level variables.
  - Its methods update those fields in place, as the script's handlers do.
  - Each method's postcondition ties the new state to the Engine function
    for that handler, applied to the old state.
  - Each method requires and keeps `Valid`, under the condition on which the
    page can run that handler.

Points of the code's behaviour that the model keeps as written:

- The debounce is strict: the test is `now - lastBeepTime > 800`. A beep
  exactly 800 ms after the previous one is suppressed (`BeepDueIsStrict`).
  `lastBeepTime` starts at 0 on page load, so the first on-target fix beeps
  only when its clock reading is above 800.
- Below the target the page applies `status-close` / "MOVE AHEAD", and above
  it `status-far` / "MOVE BACK". The bands are named `Close` and `Far` after
  those classes.
- There is no separate "acquiring" or "sensor error" guidance state. A sensor
  error only changes two texts, and the next fix overwrites both
  (`ErrorThenFix`).
- Stop never clears the log; the log lasts as long as the page.
- `captureStart` first creates the audio context if there is none. When the
  browser has no audio context constructor this throws, and the handler stops
  before subscribing (`Capture` with `audioSupported` false).

Distances are Dafny `real`s, but the page computes with IEEE doubles. The two
agree on every band decision. For a double `d` between 5 and 20, `d - 10.0` is
exact (Sterbenz's lemma), and 9.5, 10.5 and 0.5 are exact doubles, so both
band edges fall exactly where the real-number model puts them. Outside that
range the decision does not depend on rounding. The one exception is NaN,
which `haversine` yields only when rounding pushes its intermediate above 1
for nearly antipodal points; the page would then show the Far band, which a
real cannot express. A 10 m walk never gets there.

The sensor platform hands out positive subscription ids; the W3C Geolocation
API requires this. `Enabled` assumes it. With such ids, the `if (watchId)`
test in stop always clears the subscription. The model still keeps the
JavaScript truthiness test (`Truthy`, where 0 is false), so an id of 0 would
leave the subscription live.

## Model

| member | source | states |
|---|---|---|
| Guidance.Classify | 417M.py:228-244 | the band is Perfect exactly when 9.5 ≤ d ≤ 10.5 (both edges included), Close exactly when d < 9.5, Far exactly when d > 10.5; every distance gets exactly one band |
| Guidance.ClassifyAtBoundaries | 417M.py:230-243 | 9.4 m is Close; 9.5, 9.6, 10.0 and 10.5 m are Perfect; 10.6 m is Far |
| Guidance.BeepDueIsStrict | 417M.py:234 | a beep is not due exactly 800 ms after the last one, and is due 801 ms after it |
| Engine.Capture | 417M.py:192-224 | when no audio context exists and none can be created the session is unchanged (the handler throws); otherwise audio is armed, and without a location sensor nothing else changes; with one, the new id becomes `watchId` and a live subscription, the start button is hidden, "Acquiring..." and the pulsing idle box are shown; the reference, log and beep time are untouched, and an earlier subscription stays live |
| Engine.Guide | 417M.py:226-245 | the distance, its band's box class and its band's message are shown; only the display and the beep time change; outside Perfect the beep time keeps its value and nothing sounds; in Perfect the beep time becomes `now` exactly when more than 800 ms have passed; a beep sounds exactly when it is due in Perfect with audio armed |
| Engine.OnFix | 417M.py:204-220 | the accuracy is shown; the first fix without a reference becomes the reference, appends exactly one Start entry, shows "Start Set. Move!", enables save and beeps nothing; a later fix keeps the reference and the log and shows the distance from the reference and its band; a beep it plays is more than 800 ms after the previous one and is recorded as the new beep time |
| Engine.Save | 417M.py:247-254 | without a reference the session is unchanged and silent; with one, exactly one Saved entry carrying the distance text now shown is appended, nothing else changes, and the save beep sounds exactly when audio is armed |
| Engine.Stop | 417M.py:256-269 | the reference is cleared and the display reset to "--" / "Ready" / idle; the log, the beep time and the audio flag are kept; a truthy `watchId` is cleared from the platform and set to null, and any other `watchId` is left as it was |
| Engine.OnError | 417M.py:186-190 | only the accuracy text ("Err") and the message ("GPS Error") change |
| Engine.InitialValid | 417M.py:117-141 | the page as loaded satisfies the session invariant, with an empty log and no reference |
| Engine.StopIdempotent | 417M.py:256-269 | stopping twice has the same effect as stopping once |
| Engine.StopWhenIdle | 417M.py:256-269 | on a valid session whose start button is shown, stop changes nothing |
| Engine.ErrorThenFix | 417M.py:186-220 | after a sensor error the next fix yields exactly what it would have yielded without the error |
| Engine.SaveAfterFirstFix | 417M.py:210-251 | a save right after the fix that set the reference logs "--", since no distance has been computed since the reference was set |
| Runs.Step | 417M.py:192-269 | every operation keeps the old log as a prefix and adds at most one entry; the beep time never decreases; a beep is more than 800 ms after the previous beep time and becomes the new one; only stop clears a reference; start, stop and errors leave the log unchanged |
| Runs.Run | 417M.py:233-237 | a run yields one tone per event and never moves the beep time backwards |
| Runs.StepKeepsValid | 417M.py:192-269 | every enabled event keeps the session invariant: a positive live id is the only subscription, with audio armed; the start button is shown exactly when there is no subscription, and then the display is idle; save is enabled exactly when a reference is set; the reference is the point of the latest Start entry; without a reference "--" is shown; the log starts with a Start entry |
| Runs.RunKeepsValid | 417M.py:138-269 | every session reached by enabled events from a valid one is valid |
| Runs.LogOnlyGrows | 417M.py:204-269 | across any sequence of operations the old log is a prefix of the new one: nothing is removed or reordered |
| Runs.BeepsSpaced | 417M.py:233-237 | across any run, every beep is more than 800 ms after the beep time the run started with, and any two beeps are more than 800 ms apart |
| Runs.OneStartPerReference | 417M.py:210-219 | in a run without stop, a session without a reference takes the first delivered fix as its reference and logs exactly one Start entry; a session with one keeps it and logs none |
| Runs.StopEndsDelivery | 417M.py:256-260 | after a stop from a valid session no subscription is live, so no late fix or error can be delivered |
| Runs.DebounceOnTarget | 417M.py:230-237 | from the page as loaded, start and a first fix at 500 ms, then on-target fixes at 1000, 1500 and 1900 ms form a possible run; the fixes at 1000 and 1900 beep, the one at 1500 does not |
| Runs.StartSaveStopStart | 417M.py:192-269 | start, three fixes, save, stop, start, fix is a possible run, and its log is Start, Saved (showing the distance), Start, in that order |
| Tracker.TrackingSession.constructor | 417M.py:138-141 | the object starts as the page is loaded, which is a valid session |
| Tracker.TrackingSession.CaptureStart | 417M.py:192-224 | on a valid session whose start button is shown, with a fresh positive id: updates the fields as `Engine.Capture` does, reports whether a subscription was made, and keeps the session valid |
| Tracker.TrackingSession.OnPosition | 417M.py:204-220 | on a valid session with a live subscription: updates the fields and plays the tone as `Engine.OnFix` does, and keeps the session valid |
| Tracker.TrackingSession.UpdateGuidance | 417M.py:226-245 | on a valid session with a reference: updates the fields and plays the tone as `Engine.Guide` does, and keeps the session valid |
| Tracker.TrackingSession.SaveTarget | 417M.py:247-254 | on a valid session: updates the fields and plays the tone as `Engine.Save` does, and keeps the session valid |
| Tracker.TrackingSession.StopTracking | 417M.py:256-269 | on a valid session: updates the fields as `Engine.Stop` does, and keeps the session valid |
| Tracker.TrackingSession.HandleError | 417M.py:186-190 | on a valid session with a live subscription: updates the fields as `Engine.OnError` does, and keeps the session valid |

## Left out

- `haversine` (417M.py:175-184) uses floating-point trigonometry. The distance is a parameter, a total function `(Coord, Coord) -> real`.
- Web Audio (`initAudio`, `playBeep`, 417M.py:152-173) is a browser API. Whether the audio context exists is the flag `audioArmed`, and whether the browser can create one is the parameter `audioSupported`; resuming a suspended context is not modelled. A sound is a returned `Tone`; frequency, duration and gain envelope are not modelled.
- The page markup, styles and element writes (417M.py:10-133) are presentation. The display is the abstract record `Display`: distance text, message, box class, accuracy text, start/stop button visibility and the save button's state. The "Saved Locations:" heading of the log box is not a log entry.
- Number and time formatting (`toFixed`, `toLocaleTimeString`) is left out. Texts carry the number itself. `Date.now()` and `new Date()` are one integer clock reading, passed to each handler.
- The geolocation API (`watchPosition`, `clearWatch`) is a set of live subscription ids. Its options (high accuracy, maximum age 0, 5 s timeout) belong to the platform.
- `alert`, `console.warn` and the log box's scrolling have no effect on the session.
- The Python HTTP server, the local address lookup and the browser launch (417M.py:1-6, 275-323) are network and process I/O.
