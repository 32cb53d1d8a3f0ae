/**
  The page script's session as it runs: the module-level variables become the
  fields of one `TrackingSession`, and each handler a method that updates them
  in place. Every method is specified by the function of module Engine that
  gives the session after that operation, so the lemmas proved there (and in
  module Runs) hold of the object as well. Each method also keeps the session
  invariant `Valid`, under the condition on which the page can run the
  handler (the event is `Enabled`).
 */
module Tracker {
  import opened Guidance
  import opened Engine
  import opened Runs

  class TrackingSession {
    /** The great-circle distance the page computes; not modelled. */
    const distance: (Coord, Coord) -> real

    var startPos: Option<Coord>
    var watchId: Option<int>
    var lastBeepTime: int
    /** The entries of the log box, oldest first. */
    var log: seq<LogEntry>
    var display: Display
    /** Whether the audio context has been created. */
    var audioArmed: bool
    /** The live subscriptions of the location sensor platform. */
    var watches: set<int>

    /** The session these fields hold. */
    function Current(): Session
      reads this
    {
      Session(startPos, watchId, lastBeepTime, log, display, audioArmed, watches)
    }

    /** The page as loaded. */
    constructor (distance: (Coord, Coord) -> real)
      ensures this.distance == distance
      ensures Current() == INITIAL && Valid(Current())
    {
      this.distance := distance;
      startPos := None;
      watchId := None;
      lastBeepTime := 0;
      log := [];
      display := IDLE_DISPLAY;
      audioArmed := false;
      watches := {};
    }

    /**
      `captureStart`; `newId` is the id the platform's `watchPosition` returns.
      The start button is shown, so no subscription is live. Reports whether a
      subscription was made; when the audio context cannot be created the
      handler throws before anything changes, which is reported as false.
     */
    method CaptureStart(audioSupported: bool, geoSupported: bool, newId: int) returns (started: bool)
      requires Valid(Current())
      requires display.startShown && newId > 0 && newId !in watches
      modifies this
      ensures Valid(Current())
      ensures started == ((old(audioArmed) || audioSupported) && geoSupported)
      ensures Current() == Capture(old(Current()), audioSupported, geoSupported, newId)
    {
      ghost var before := Current();
      started := false;
      if audioArmed || audioSupported {
        audioArmed := true;
        if geoSupported {
          display := display.(startShown := false, msg := Acquiring, box := IdlePulseBox);
          watches := watches + {newId};
          watchId := Some(newId);
          started := true;
        }
      }
      StepKeepsValid(before, distance, PressStart(audioSupported, geoSupported, newId));
    }

    /** The `watchPosition` success callback, with `now` the clock reading; a subscription is live. */
    method OnPosition(fix: Fix, now: int) returns (tone: Tone)
      requires Valid(Current()) && watches != {}
      modifies this
      ensures Valid(Current())
      ensures Output(Current(), tone) == OnFix(old(Current()), distance, fix, now)
    {
      ghost var before := Current();
      display := display.(acc := Accuracy(fix.accuracy));
      if startPos.None? {
        startPos := Some(fix.at);
        display := display.(msg := StartSet, saveEnabled := true);
        log := log + [Start(now, fix.at)];
        tone := Silent;
        StepKeepsValid(before, distance, Deliver(fix, now));
      } else {
        var d := distance(startPos.value, fix.at);
        tone := UpdateGuidance(d, now);
      }
    }

    /** `updateGuidance` on distance `d` at clock reading `now`; a reference is set. */
    method UpdateGuidance(d: real, now: int) returns (tone: Tone)
      requires Valid(Current()) && startPos.Some?
      modifies this
      ensures Valid(Current())
      ensures Output(Current(), tone) == Guide(old(Current()), d, now)
    {
      var band := Classify(d);
      display := display.(dist := Meters(d), box := BoxOf(band), msg := MessageOf(band));
      tone := Silent;
      if band == Perfect {
        if now - lastBeepTime > MIN_BEEP_GAP_MS {
          if audioArmed {
            tone := GuidanceBeep(now);
          }
          lastBeepTime := now;
        }
      }
    }

    /** `saveTarget` at clock reading `now`. */
    method SaveTarget(now: int) returns (tone: Tone)
      requires Valid(Current())
      modifies this
      ensures Valid(Current())
      ensures Output(Current(), tone) == Save(old(Current()), now)
    {
      ghost var before := Current();
      tone := Silent;
      if startPos.Some? {
        log := log + [Saved(now, display.dist)];
        tone := if audioArmed then SaveBeep else Silent;
      }
      StepKeepsValid(before, distance, PressSave(now));
    }

    /** `stopTracking`. */
    method StopTracking()
      requires Valid(Current())
      modifies this
      ensures Valid(Current())
      ensures Current() == Stop(old(Current()))
    {
      ghost var before := Current();
      if Truthy(watchId) {
        watches := watches - {watchId.value};
        watchId := None;
      }
      startPos := None;
      display := IDLE_DISPLAY;
      StepKeepsValid(before, distance, PressStop);
    }

    /** `handleError`, the `watchPosition` error callback; a subscription is live. */
    method HandleError()
      requires Valid(Current()) && watches != {}
      modifies this
      ensures Valid(Current())
      ensures Current() == OnError(old(Current()))
    {
      ghost var before := Current();
      display := display.(acc := AccuracyError, msg := GpsError);
      StepKeepsValid(before, distance, DeliverError);
    }
  }
}
