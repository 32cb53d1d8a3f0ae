/**
  Sessions over time. The page reacts to a stream of events: the user's three
  buttons and the sensor platform's callbacks. `Step` applies one event with
  the operation the page runs for it, `Run` applies a sequence of them, and the
  lemmas here state what holds across any such sequence: the log only grows,
  guidance beeps are spaced by more than the minimum gap, a reference point is
  logged once, and every reachable session is `Valid`.
 */
module Runs {
  import opened Guidance
  import opened Engine

  datatype Event =
    | PressStart(audioSupported: bool, geoSupported: bool, newId: int)  // captureStart; newId is what watchPosition returns
    | Deliver(fix: Fix, now: int)                 // the watchPosition success callback
    | DeliverError                                // the watchPosition error callback, handleError
    | PressSave(now: int)                         // saveTarget
    | PressStop                                   // stopTracking

  /** The operation the page runs for an event. */
  function Step(s: Session, distance: (Coord, Coord) -> real, e: Event): (o: Output)
    ensures s.log <= o.next.log && |o.next.log| <= |s.log| + 1
    ensures o.next.lastBeepTime >= s.lastBeepTime
    ensures o.tone.GuidanceBeep? ==>
      o.tone.at == o.next.lastBeepTime && o.tone.at - s.lastBeepTime > MIN_BEEP_GAP_MS
    ensures !e.PressStop? && s.startPos.Some? ==> o.next.startPos == s.startPos
    ensures e.PressStop? || e.PressStart? || e.DeliverError? ==> o.next.log == s.log
  {
    match e
    case PressStart(audioSupported, geoSupported, newId) => Output(Capture(s, audioSupported, geoSupported, newId), Silent)
    case Deliver(fix, now) => OnFix(s, distance, fix, now)
    case DeliverError => Output(OnError(s), Silent)
    case PressSave(now) => Save(s, now)
    case PressStop => Output(Stop(s), Silent)
  }

  /**
    Which events can happen in a session. The start button can only be pressed
    while it is shown, and the platform hands out a fresh positive id; the
    platform calls back only while a subscription is live. Save and stop may
    come at any time.
   */
  predicate Enabled(s: Session, e: Event) {
    match e
    case PressStart(_, _, newId) => s.display.startShown && newId > 0 && newId !in s.watches
    case Deliver(_, _) => s.watches != {}
    case DeliverError => s.watches != {}
    case PressSave(_) => true
    case PressStop => true
  }

  /** Every event of `es` is enabled in the session it reaches. */
  predicate Admissible(s: Session, distance: (Coord, Coord) -> real, es: seq<Event>)
    decreases |es|
  {
    es == [] || (Enabled(s, es[0]) && Admissible(Step(s, distance, es[0]).next, distance, es[1..]))
  }

  /** The final session of a run and the tone of each of its events. */
  datatype Trace = Trace(final: Session, tones: seq<Tone>)

  function Run(s: Session, distance: (Coord, Coord) -> real, es: seq<Event>): (t: Trace)
    ensures |t.tones| == |es|
    ensures s.lastBeepTime <= t.final.lastBeepTime
    decreases |es|
  {
    if es == [] then Trace(s, [])
    else
      var o := Step(s, distance, es[0]);
      var rest := Run(o.next, distance, es[1..]);
      Trace(rest.final, [o.tone] + rest.tones)
  }

  /** The times of the guidance beeps among some tones, in order. */
  function BeepTimes(tones: seq<Tone>): seq<int> {
    if tones == [] then []
    else (if tones[0].GuidanceBeep? then [tones[0].at] else []) + BeepTimes(tones[1..])
  }

  /** The point of the first fix delivered in `es`, if any. */
  function FirstFix(es: seq<Event>): Option<Coord> {
    if es == [] then None
    else if es[0].Deliver? then Some(es[0].fix.at)
    else FirstFix(es[1..])
  }

  /** Every event the page can see keeps the session valid. */
  lemma StepKeepsValid(s: Session, distance: (Coord, Coord) -> real, e: Event)
    requires Valid(s) && Enabled(s, e)
    ensures Valid(Step(s, distance, e).next)
  {
    match e
    case Deliver(fix, now) =>
      if s.startPos.None? {
        LastStartAppend(s.log, Start(now, fix.at));
      }
    case PressSave(now) =>
      if s.startPos.Some? {
        LastStartAppend(s.log, Saved(now, s.display.dist));
      }
    case _ =>
  }

  /** Every session reached from a valid one by enabled events is valid. */
  lemma {:induction false} RunKeepsValid(s: Session, distance: (Coord, Coord) -> real, es: seq<Event>)
    requires Valid(s) && Admissible(s, distance, es)
    ensures Valid(Run(s, distance, es).final)
    decreases |es|
  {
    if es != [] {
      StepKeepsValid(s, distance, es[0]);
      RunKeepsValid(Step(s, distance, es[0]).next, distance, es[1..]);
    }
  }

  /** The log is append-only: whatever happens, the old log is a prefix of the new one. */
  lemma {:induction false} LogOnlyGrows(s: Session, distance: (Coord, Coord) -> real, es: seq<Event>)
    ensures s.log <= Run(s, distance, es).final.log
    decreases |es|
  {
    if es != [] {
      var o := Step(s, distance, es[0]);
      LogOnlyGrows(o.next, distance, es[1..]);
    }
  }

  /**
    Beep times `b` are debounced after a beep at `last`: each is more than the
    minimum gap after `last`, and any two are more than the minimum gap apart.
   */
  predicate Spaced(b: seq<int>, last: int) {
    && (forall i :: 0 <= i < |b| ==> b[i] - last > MIN_BEEP_GAP_MS)
    && (forall i, j :: 0 <= i < j < |b| ==> b[j] - b[i] > MIN_BEEP_GAP_MS)
  }

  lemma SpacedCons(x: int, b: seq<int>, last: int)
    requires x - last > MIN_BEEP_GAP_MS && Spaced(b, x)
    ensures Spaced([x] + b, last)
  {
    var c := [x] + b;
    forall i, j | 0 <= i < j < |c|
      ensures c[j] - c[i] > MIN_BEEP_GAP_MS
    {
      assert c[j] == b[j - 1];
      if i > 0 {
        assert c[i] == b[i - 1];
      }
    }
  }

  lemma SpacedEarlier(b: seq<int>, last: int, earlier: int)
    requires earlier <= last && Spaced(b, last)
    ensures Spaced(b, earlier)
  {
  }

  lemma BeepTimesCons(t: Tone, ts: seq<Tone>)
    ensures BeepTimes([t] + ts) == (if t.GuidanceBeep? then [t.at] else []) + BeepTimes(ts)
  {
    assert ([t] + ts)[1..] == ts;
  }

  /**
    Guidance beeps are debounced: each comes more than the minimum gap after
    the last beep before the run, and any two come more than the minimum gap
    apart, whatever the clock readings and distances.
   */
  lemma {:induction false} BeepsSpaced(s: Session, distance: (Coord, Coord) -> real, es: seq<Event>)
    ensures Spaced(BeepTimes(Run(s, distance, es).tones), s.lastBeepTime)
    decreases |es|
  {
    if es != [] {
      var o := Step(s, distance, es[0]);
      var rest := Run(o.next, distance, es[1..]).tones;
      BeepsSpaced(o.next, distance, es[1..]);
      assert Run(s, distance, es).tones == [o.tone] + rest;
      BeepTimesCons(o.tone, rest);
      if o.tone.GuidanceBeep? {
        SpacedCons(o.tone.at, BeepTimes(rest), s.lastBeepTime);
      } else {
        SpacedEarlier(BeepTimes(rest), o.next.lastBeepTime, s.lastBeepTime);
      }
    }
  }

  /**
    Without a stop, a reference point is captured once: if the run started
    without one, the first delivered fix becomes the reference and is the only
    Start entry logged; if it started with one, the reference stays and no
    Start entry is logged.
   */
  lemma {:induction false} OneStartPerReference(s: Session, distance: (Coord, Coord) -> real, es: seq<Event>)
    requires forall i :: 0 <= i < |es| ==> !es[i].PressStop?
    ensures var f := Run(s, distance, es).final;
      && f.startPos == (if s.startPos.Some? then s.startPos else FirstFix(es))
      && CountStarts(f.log) == CountStarts(s.log) + (if s.startPos.None? && FirstFix(es).Some? then 1 else 0)
    decreases |es|
  {
    if es != [] {
      var e := es[0];
      var o := Step(s, distance, e);
      OneStartPerReference(o.next, distance, es[1..]);
      match e
      case Deliver(fix, now) =>
        if s.startPos.None? {
          CountStartsAppend(s.log, Start(now, fix.at));
        }
      case PressSave(now) =>
        if s.startPos.Some? {
          CountStartsAppend(s.log, Saved(now, s.display.dist));
        }
      case _ =>
    }
  }

  /**
    After a stop from a valid session no subscription is live, so the platform
    delivers no further fix or error from the old subscription: nothing can
    reach the log or the display until start is pressed again.
   */
  lemma StopEndsDelivery(s: Session, fix: Fix, now: int)
    requires Valid(s)
    ensures Stop(s).watches == {}
    ensures !Enabled(Stop(s), Deliver(fix, now)) && !Enabled(Stop(s), DeliverError)
  {
  }

  /** A distance function that always answers 10 m, for the scenarios below. */
  function TenMetres(p: Coord, q: Coord): real {
    10.0
  }

  /**
    The debounce on a steady on-target position, from the page as loaded
    (`lastBeepTime` still 0): start, a first fix at 500 ms that sets the
    reference, then fixes 10 m away at 1000, 1500 and 1900 ms. The fix at
    1000 beeps, the one at 1500 is too early, the one at 1900 beeps.
   */
  lemma DebounceOnTarget(ref: Coord, at: Coord)
    ensures var es := [
        PressStart(true, true, 1), Deliver(Fix(ref, 3.0), 500),
        Deliver(Fix(at, 3.0), 1000), Deliver(Fix(at, 3.0), 1500), Deliver(Fix(at, 3.0), 1900)];
      && Admissible(INITIAL, TenMetres, es)
      && Run(INITIAL, TenMetres, es).tones == [Silent, Silent, GuidanceBeep(1000), Silent, GuidanceBeep(1900)]
  {
    var es := [
        PressStart(true, true, 1), Deliver(Fix(ref, 3.0), 500),
        Deliver(Fix(at, 3.0), 1000), Deliver(Fix(at, 3.0), 1500), Deliver(Fix(at, 3.0), 1900)];
    var o1 := Step(INITIAL, TenMetres, es[0]);
    assert o1.tone == Silent && o1.next.audioArmed && o1.next.watches == {1};
    var o2 := Step(o1.next, TenMetres, es[1]);
    assert o2.tone == Silent && o2.next.startPos == Some(ref) && o2.next.lastBeepTime == 0;
    var o3 := Step(o2.next, TenMetres, es[2]);
    assert o3.tone == GuidanceBeep(1000) && o3.next.lastBeepTime == 1000;
    var o4 := Step(o3.next, TenMetres, es[3]);
    assert o4.tone == Silent && o4.next.lastBeepTime == 1000;
    var o5 := Step(o4.next, TenMetres, es[4]);
    assert o5.tone == GuidanceBeep(1900);
    assert es[5..] == [];
    assert Admissible(o5.next, TenMetres, es[5..]);
    assert Admissible(o4.next, TenMetres, es[4..]) by { assert es[4..][1..] == es[5..]; }
    assert Admissible(o3.next, TenMetres, es[3..]) by { assert es[3..][1..] == es[4..]; }
    assert Admissible(o2.next, TenMetres, es[2..]) by { assert es[2..][1..] == es[3..]; }
    assert Admissible(o1.next, TenMetres, es[1..]) by { assert es[1..][1..] == es[2..]; }
    assert Run(o5.next, TenMetres, es[5..]).tones == [];
    assert Run(o4.next, TenMetres, es[4..]).tones == [o5.tone] by { assert es[4..][1..] == es[5..]; }
    assert Run(o3.next, TenMetres, es[3..]).tones == [o4.tone, o5.tone] by { assert es[3..][1..] == es[4..]; }
    assert Run(o2.next, TenMetres, es[2..]).tones == [o3.tone, o4.tone, o5.tone] by { assert es[2..][1..] == es[3..]; }
    assert Run(o1.next, TenMetres, es[1..]).tones == [o2.tone, o3.tone, o4.tone, o5.tone] by { assert es[1..][1..] == es[2..]; }
  }

  /**
    Start, fixes, save, stop, start again: the log holds Start, Saved, Start in
    that order; the stop keeps the log and the second start gets a new
    reference from its first fix.
   */
  lemma StartSaveStopStart(a: Coord, b: Coord)
    ensures var es := [
        PressStart(true, true, 1), Deliver(Fix(a, 4.0), 0), Deliver(Fix(b, 4.0), 100), Deliver(Fix(b, 4.0), 200),
        PressSave(300), PressStop, PressStart(true, true, 2), Deliver(Fix(b, 4.0), 400)];
      && Admissible(INITIAL, TenMetres, es)
      && Run(INITIAL, TenMetres, es).final.log == [Start(0, a), Saved(300, Meters(10.0)), Start(400, b)]
  {
    var es := [
        PressStart(true, true, 1), Deliver(Fix(a, 4.0), 0), Deliver(Fix(b, 4.0), 100), Deliver(Fix(b, 4.0), 200),
        PressSave(300), PressStop, PressStart(true, true, 2), Deliver(Fix(b, 4.0), 400)];
    var s0 := INITIAL;
    var s1 := Step(s0, TenMetres, es[0]).next;
    var s2 := Step(s1, TenMetres, es[1]).next;
    assert s2.log == [Start(0, a)];
    var s3 := Step(s2, TenMetres, es[2]).next;
    var s4 := Step(s3, TenMetres, es[3]).next;
    assert s4.display.dist == Meters(10.0) && s4.log == s2.log;
    var s5 := Step(s4, TenMetres, es[4]).next;
    assert s5.log == [Start(0, a), Saved(300, Meters(10.0))];
    var s6 := Step(s5, TenMetres, es[5]).next;
    assert s6.watches == {} && s6.display.startShown;
    var s7 := Step(s6, TenMetres, es[6]).next;
    var s8 := Step(s7, TenMetres, es[7]).next;
    assert s8.log == [Start(0, a), Saved(300, Meters(10.0)), Start(400, b)];
    assert es[8..] == [];
    assert Admissible(s8, TenMetres, es[8..]);
    assert Admissible(s7, TenMetres, es[7..]) by { assert es[7..][1..] == es[8..]; }
    assert Admissible(s6, TenMetres, es[6..]) by { assert es[6..][1..] == es[7..]; }
    assert Admissible(s5, TenMetres, es[5..]) by { assert es[5..][1..] == es[6..]; }
    assert Admissible(s4, TenMetres, es[4..]) by { assert es[4..][1..] == es[5..]; }
    assert Admissible(s3, TenMetres, es[3..]) by { assert es[3..][1..] == es[4..]; }
    assert Admissible(s2, TenMetres, es[2..]) by { assert es[2..][1..] == es[3..]; }
    assert Admissible(s1, TenMetres, es[1..]) by { assert es[1..][1..] == es[2..]; }
    assert Run(s8, TenMetres, es[8..]).final == s8;
    assert Run(s7, TenMetres, es[7..]).final == s8 by { assert es[7..][1..] == es[8..]; }
    assert Run(s6, TenMetres, es[6..]).final == s8 by { assert es[6..][1..] == es[7..]; }
    assert Run(s5, TenMetres, es[5..]).final == s8 by { assert es[5..][1..] == es[6..]; }
    assert Run(s4, TenMetres, es[4..]).final == s8 by { assert es[4..][1..] == es[5..]; }
    assert Run(s3, TenMetres, es[3..]).final == s8 by { assert es[3..][1..] == es[4..]; }
    assert Run(s2, TenMetres, es[2..]).final == s8 by { assert es[2..][1..] == es[3..]; }
    assert Run(s1, TenMetres, es[1..]).final == s8 by { assert es[1..][1..] == es[2..]; }
  }
}
