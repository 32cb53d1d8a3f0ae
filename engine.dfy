/**
  The guidance engine's session as a value, and one function per operation of
  the page script giving the session after that operation. The page keeps
  this state in module-level variables (`startPos`, `watchId`, `lastBeepTime`),
  in the log box and in the texts and classes of a few elements; here each of
  those is a field of `Session`.

  The great-circle distance is not modelled: it is the parameter `distance`.
 */
module Engine {
  import opened Guidance

  datatype Option<T> = None | Some(value: T)

  datatype Coord = Coord(lat: real, lng: real)

  /** One position report of the location sensor. */
  datatype Fix = Fix(at: Coord, accuracy: real)

  /** The distance element: "--", or a distance in metres (rendered with one decimal and "m"). */
  datatype DistText = NoDistance | Meters(m: real)

  /** The accuracy element: "--", an accuracy in metres, or "Err". */
  datatype AccText = NoAccuracy | Accuracy(m: real) | AccuracyError

  datatype Message = Ready | Acquiring | StartSet | PerfectStop | MoveAhead | MoveBack | GpsError

  /** The status class of the display box. */
  datatype BoxClass = IdleBox | IdlePulseBox | PerfectBox | CloseBox | FarBox

  /**
    What the page shows. `startShown` is the visibility of the start button;
    the stop button is always shown exactly when the start button is not.
    `saveEnabled` is the state of the save button.
   */
  datatype Display = Display(
    dist: DistText, msg: Message, box: BoxClass, acc: AccText,
    startShown: bool, saveEnabled: bool)

  /** A line of the log box: a captured reference point, or a saved distance label. */
  datatype LogEntry = Start(time: int, at: Coord) | Saved(time: int, shown: DistText)

  /** A sound an operation plays: the on-target beep at a time, or the save beep. */
  datatype Tone = Silent | GuidanceBeep(at: int) | SaveBeep

  /**
    The whole session. `audioArmed` says whether the audio context exists;
    `watches` is the sensor platform's set of live subscriptions, which only
    `watchPosition` adds to and `clearWatch` removes from.
   */
  datatype Session = Session(
    startPos: Option<Coord>,
    watchId: Option<int>,
    lastBeepTime: int,
    log: seq<LogEntry>,
    display: Display,
    audioArmed: bool,
    watches: set<int>)

  /** The session after an operation, and the sound the operation played. */
  datatype Output = Output(next: Session, tone: Tone)

  /** The page as loaded and as reset by stop. */
  const IDLE_DISPLAY: Display := Display(NoDistance, Ready, IdleBox, NoAccuracy, true, false)

  /** The state when the page has loaded: no reference, no subscription, no beep yet. */
  const INITIAL: Session := Session(None, None, 0, [], IDLE_DISPLAY, false, {})

  /** JavaScript truthiness of `watchId`: set and not 0. */
  predicate Truthy(w: Option<int>) {
    w.Some? && w.value != 0
  }

  function BoxOf(b: Band): BoxClass {
    match b
    case Perfect => PerfectBox
    case Close => CloseBox
    case Far => FarBox
  }

  function MessageOf(b: Band): Message {
    match b
    case Perfect => PerfectStop
    case Close => MoveAhead
    case Far => MoveBack
  }

  /**
    `captureStart`: first `initAudio`, which creates the audio context unless
    one exists; when the browser has no audio context constructor that
    creation throws and `captureStart` stops there, changing nothing. Then,
    when the platform has a location sensor, a new subscription `newId` is
    registered. Without a sensor nothing but the audio flag changes. The
    reference point is not touched, and an earlier subscription is not cleared.
   */
  function Capture(s: Session, audioSupported: bool, geoSupported: bool, newId: int): (r: Session)
    ensures !s.audioArmed && !audioSupported ==> r == s
    ensures s.audioArmed || audioSupported ==> r.audioArmed
    ensures r.startPos == s.startPos && r.log == s.log && r.lastBeepTime == s.lastBeepTime
    ensures (s.audioArmed || audioSupported) && !geoSupported ==> r == s.(audioArmed := true)
    ensures (s.audioArmed || audioSupported) && geoSupported ==>
      && r.watchId == Some(newId)
      && r.watches == s.watches + {newId}
      && r.display == s.display.(startShown := false, msg := Acquiring, box := IdlePulseBox)
  {
    if !s.audioArmed && !audioSupported then s
    else
      var armed := s.(audioArmed := true);
      if !geoSupported then armed
      else
        armed.(
          display := armed.display.(startShown := false, msg := Acquiring, box := IdlePulseBox),
          watchId := Some(newId),
          watches := armed.watches + {newId})
  }

  /**
    `updateGuidance`: shows the distance and its band, and in the Perfect band
    beeps when the debounce allows it, recording the beep time. Nothing but
    the display and `lastBeepTime` changes; outside the Perfect band
    `lastBeepTime` keeps its value; a beep is only heard when audio is armed.
   */
  function Guide(s: Session, d: real, now: int): (o: Output)
    ensures o.next == s.(display := o.next.display, lastBeepTime := o.next.lastBeepTime)
    ensures o.next.display == s.display.(dist := Meters(d), box := BoxOf(Classify(d)), msg := MessageOf(Classify(d)))
    ensures Classify(d) != Perfect ==> o.next.lastBeepTime == s.lastBeepTime && o.tone == Silent
    ensures Classify(d) == Perfect && BeepDue(now, s.lastBeepTime) ==> o.next.lastBeepTime == now
    ensures !BeepDue(now, s.lastBeepTime) ==> o.next.lastBeepTime == s.lastBeepTime && o.tone == Silent
    ensures o.tone != Silent <==> Classify(d) == Perfect && BeepDue(now, s.lastBeepTime) && s.audioArmed
    ensures o.tone != Silent ==> o.tone == GuidanceBeep(now)
  {
    var band := Classify(d);
    var shown := s.(display := s.display.(dist := Meters(d), box := BoxOf(band), msg := MessageOf(band)));
    if band == Perfect && BeepDue(now, s.lastBeepTime) then
      Output(shown.(lastBeepTime := now), if s.audioArmed then GuidanceBeep(now) else Silent)
    else
      Output(shown, Silent)
  }

  /**
    The `watchPosition` success callback. The first fix without a reference
    becomes the reference and logs one Start entry; every later fix leaves the
    reference and the log alone and only updates the guidance.
   */
  function OnFix(s: Session, distance: (Coord, Coord) -> real, fix: Fix, now: int): (o: Output)
    ensures o.next.watchId == s.watchId && o.next.watches == s.watches && o.next.audioArmed == s.audioArmed
    ensures o.next.display.acc == Accuracy(fix.accuracy)
    ensures o.next.display.startShown == s.display.startShown
    ensures o.next.lastBeepTime >= s.lastBeepTime
    ensures o.tone != Silent ==>
      o.tone == GuidanceBeep(o.next.lastBeepTime) && o.next.lastBeepTime - s.lastBeepTime > MIN_BEEP_GAP_MS
    ensures s.startPos.None? ==>
      && o.next.startPos == Some(fix.at)
      && o.next.log == s.log + [Start(now, fix.at)]
      && o.next.lastBeepTime == s.lastBeepTime
      && o.next.display == s.display.(acc := Accuracy(fix.accuracy), msg := StartSet, saveEnabled := true)
      && o.tone == Silent
    ensures s.startPos.Some? ==>
      && o.next.startPos == s.startPos
      && o.next.log == s.log
      && o.next.display.dist == Meters(distance(s.startPos.value, fix.at))
      && o.next.display.box == BoxOf(Classify(distance(s.startPos.value, fix.at)))
      && o.next.display.msg == MessageOf(Classify(distance(s.startPos.value, fix.at)))
      && o.next.display.saveEnabled == s.display.saveEnabled
    ensures s.startPos.Some? ==>
      o == Guide(s.(display := s.display.(acc := Accuracy(fix.accuracy))), distance(s.startPos.value, fix.at), now)
  {
    var sensed := s.(display := s.display.(acc := Accuracy(fix.accuracy)));
    match s.startPos
    case None =>
      Output(
        sensed.(
          startPos := Some(fix.at),
          display := sensed.display.(msg := StartSet, saveEnabled := true),
          log := s.log + [Start(now, fix.at)]),
        Silent)
    case Some(ref) =>
      Guide(sensed, distance(ref, fix.at), now)
  }

  /**
    `saveTarget`: without a reference nothing happens; with one, exactly one
    Saved entry carrying the distance text currently shown is appended, and
    the save beep plays when audio is armed.
   */
  function Save(s: Session, now: int): (o: Output)
    ensures s.startPos.None? ==> o == Output(s, Silent)
    ensures s.startPos.Some? ==>
      && o.next == s.(log := s.log + [Saved(now, s.display.dist)])
      && (o.tone == SaveBeep <==> s.audioArmed)
    ensures o.tone != SaveBeep ==> o.tone == Silent
  {
    if s.startPos.None? then Output(s, Silent)
    else Output(s.(log := s.log + [Saved(now, s.display.dist)]), if s.audioArmed then SaveBeep else Silent)
  }

  /**
    `stopTracking`: clears the subscription when `watchId` is truthy, always
    clears the reference and resets the display; keeps the log and
    `lastBeepTime`.
   */
  function Stop(s: Session): (r: Session)
    ensures r.startPos == None && r.display == IDLE_DISPLAY
    ensures r.log == s.log && r.lastBeepTime == s.lastBeepTime && r.audioArmed == s.audioArmed
    ensures Truthy(s.watchId) ==> r.watchId == None && r.watches == s.watches - {s.watchId.value}
    ensures !Truthy(s.watchId) ==> r.watchId == s.watchId && r.watches == s.watches
  {
    var cleared :=
      if Truthy(s.watchId) then s.(watches := s.watches - {s.watchId.value}, watchId := None)
      else s;
    cleared.(startPos := None, display := IDLE_DISPLAY)
  }

  /** `handleError`: shows "Err" and "GPS Error"; nothing else changes. */
  function OnError(s: Session): (r: Session)
    ensures r == s.(display := r.display)
    ensures r.display == s.display.(acc := AccuracyError, msg := GpsError)
  {
    s.(display := s.display.(acc := AccuracyError, msg := GpsError))
  }

  /** The reference point of the most recent Start entry of a log, if any. */
  function LastStart(log: seq<LogEntry>): Option<Coord> {
    if log == [] then None
    else if log[|log| - 1].Start? then Some(log[|log| - 1].at)
    else LastStart(log[..|log| - 1])
  }

  /** The number of Start entries of a log. */
  function CountStarts(log: seq<LogEntry>): nat {
    if log == [] then 0
    else CountStarts(log[..|log| - 1]) + (if log[|log| - 1].Start? then 1 else 0)
  }

  lemma LastStartAppend(log: seq<LogEntry>, e: LogEntry)
    ensures LastStart(log + [e]) == if e.Start? then Some(e.at) else LastStart(log)
  {
    assert (log + [e])[..|log|] == log;
  }

  lemma CountStartsAppend(log: seq<LogEntry>, e: LogEntry)
    ensures CountStarts(log + [e]) == CountStarts(log) + if e.Start? then 1 else 0
  {
    assert (log + [e])[..|log|] == log;
  }

  /**
    What holds of every session the page can reach (see Runs.RunKeepsValid):
    a held subscription id is positive, live and the only live one, and audio
    is armed; the start button is shown exactly when no subscription is held,
    and then the display is the idle one; the save button is enabled exactly
    when a reference is set; a reference is the point of the latest Start
    entry; without a reference no distance is shown; the log starts with a
    Start entry.
   */
  predicate Valid(s: Session) {
    && (s.watchId.Some? ==> s.watchId.value > 0 && s.audioArmed)
    && s.watches == (if s.watchId.Some? then {s.watchId.value} else {})
    && (s.display.startShown <==> s.watchId.None?)
    && (s.display.startShown ==> s.display == IDLE_DISPLAY)
    && (s.display.saveEnabled <==> s.startPos.Some?)
    && (s.startPos.Some? ==> s.watchId.Some? && LastStart(s.log) == s.startPos)
    && (s.startPos.None? ==> s.display.dist == NoDistance)
    && (s.log != [] ==> s.log[0].Start?)
  }

  lemma InitialValid()
    ensures Valid(INITIAL) && INITIAL.log == [] && INITIAL.startPos.None?
  {
  }

  /** Stopping twice is stopping once. */
  lemma StopIdempotent(s: Session)
    ensures Stop(Stop(s)) == Stop(s)
  {
  }

  /** On a session that is already idle, stop changes nothing. */
  lemma StopWhenIdle(s: Session)
    requires Valid(s) && s.display.startShown
    ensures Stop(s) == s
  {
  }

  /**
    After a sensor error the next fix is processed exactly as if the error had
    not been reported: the error leaves no trace once a fix arrives.
   */
  lemma ErrorThenFix(s: Session, distance: (Coord, Coord) -> real, fix: Fix, now: int)
    ensures OnFix(OnError(s), distance, fix, now) == OnFix(s, distance, fix, now)
  {
  }

  /**
    A save right after the first fix logs "--": the first fix sets the
    reference but computes no distance.
   */
  lemma SaveAfterFirstFix(s: Session, distance: (Coord, Coord) -> real, fix: Fix, t0: int, t1: int)
    requires Valid(s) && s.startPos.None?
    ensures Save(OnFix(s, distance, fix, t0).next, t1).next.log
         == s.log + [Start(t0, fix.at), Saved(t1, NoDistance)]
  {
  }
}
