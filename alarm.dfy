/** The per-frame state machine of `main` in main.py: BLOQUEADO (waiting for
    the gesture sequence), COUNTDOWN, TRACKING (waiting for the person to
    move away) and UNLOCKED (counting down to exit).

    Time is integer milliseconds and is passed in: `now` stands for every
    `time.time()` read during one frame. */
module Alarm {
  import opened Common
  import opened Shapes
  import opened Tracker

  datatype State = Bloqueado | Countdown | Tracking | Unlocked

  /** The position of a state in the only order the machine visits them. */
  function Rank(s: State): nat
  {
    match s
    case Bloqueado => 0
    case Countdown => 1
    case Tracking => 2
    case Unlocked => 3
  }

  /** `EXPECTED_SEQUENCE` as configured in main.py. */
  const ExpectedSequence: seq<Label> := [Montana]
  const RoiSize: nat := 450
  const CountdownSeconds: int := 5
  const MinMovement: int := 700
  /** A correct shape is appended only if more than this has passed. */
  const DebounceMs: int := 200
  /** A wrong shape clears the sequence only if more than this has passed. */
  const ResetMs: int := 2000

  /** `int(COUNTDOWN_SECONDS - elapsed) + 1`, the number both countdowns
      show. Because `int()` truncates toward zero, the shown number drops to
      0 only once six full seconds have passed, not five; until then it is
      a number from 1 to 6. */
  function Remaining(elapsedMs: int): (r: int)
    ensures r <= 0 <==> elapsedMs >= 6000
    ensures 0 <= elapsedMs < 6000 ==> 1 <= r <= 6
  {
    TruncDiv(CountdownSeconds * 1000 - elapsedMs, 1000) + 1
  }

  /** The BLOQUEADO bookkeeping: `detected_sequence`, `last_detection_time`
      and `reset_message`. */
  datatype Bookkeeping = Bookkeeping(detected: seq<Label>, lastDetection: int, resetMessage: bool)

  /** The frame's shape is the next expected one and the debounce window has passed. */
  predicate Appends(expected: seq<Label>, b: Bookkeeping, pattern: Option<Label>, now: int)
    requires |b.detected| < |expected|
  {
    pattern == Some(expected[|b.detected|]) && now - b.lastDetection > DebounceMs
  }

  /** The frame's shape is not the next expected one and the grace period has passed. */
  predicate Resets(expected: seq<Label>, b: Bookkeeping, pattern: Option<Label>, now: int)
    requires |b.detected| < |expected|
  {
    pattern.Some? && pattern.value != expected[|b.detected|] && now - b.lastDetection > ResetMs
  }

  /** One frame of BLOQUEADO bookkeeping for the detected `pattern` (lines
      199-233 of main.py), before the full-match test. */
  function LockedUpdate(expected: seq<Label>, b: Bookkeeping, pattern: Option<Label>, now: int): (r: Bookkeeping)
    requires |b.detected| < |expected|
    ensures b.detected <= expected ==> r.detected <= expected
    ensures |r.detected| > |b.detected| <==> Appends(expected, b, pattern, now)
    ensures Appends(expected, b, pattern, now) ==>
      r.detected == b.detected + [expected[|b.detected|]] && r.lastDetection == now && !r.resetMessage
    ensures Resets(expected, b, pattern, now) ==>
      r.detected == [] && r.lastDetection == now && r.resetMessage
    ensures !Appends(expected, b, pattern, now) && !Resets(expected, b, pattern, now) ==> r == b
  {
    match pattern
    case None => b
    case Some(p) =>
      var isCorrect := p == expected[|b.detected|];
      var dt := now - b.lastDetection;
      if isCorrect && dt > DebounceMs then Bookkeeping(b.detected + [p], now, false)
      else if !isCorrect && dt > ResetMs then Bookkeeping([], now, true)
      else b
  }

  /** A frame with no shape leaves the bookkeeping as it was. */
  lemma AbsentPatternKeepsSequence(expected: seq<Label>, b: Bookkeeping, now: int)
    requires |b.detected| < |expected|
    ensures LockedUpdate(expected, b, None, now) == b
  {
  }

  /** One BLOQUEADO frame: the detected shape and its time. */
  datatype Event = Event(pattern: Option<Label>, time: int)

  /** The bookkeeping after a run of BLOQUEADO frames, replayed through
      `LockedUpdate` alone, independently of the `Sequencer` class; the run
      stops at the frame where the detected sequence becomes the expected
      one, since that frame switches the machine to COUNTDOWN. */
  function LockedRun(expected: seq<Label>, b: Bookkeeping, events: seq<Event>): (r: Bookkeeping)
    requires b.detected < expected
    ensures r.detected <= expected
    decreases |events|
  {
    if events == [] then b
    else
      var next := LockedUpdate(expected, b, events[0].pattern, events[0].time);
      if next.detected == expected then next
      else LockedRun(expected, next, events[1..])
  }

  /** Wrong shapes never grow an empty sequence: however many resets
      happen, the sequence stays empty. */
  lemma {:induction false} ResetsKeepEmpty(expected: seq<Label>, b: Bookkeeping, events: seq<Event>)
    requires |expected| > 0 && b.detected == []
    requires forall i :: 0 <= i < |events| ==> events[i].pattern.Some? && events[i].pattern.value != expected[0]
    ensures LockedRun(expected, b, events).detected == []
    decreases |events|
  {
    if events != [] {
      var next := LockedUpdate(expected, b, events[0].pattern, events[0].time);
      assert !Appends(expected, b, events[0].pattern, events[0].time);
      assert next.detected == [];
      ResetsKeepEmpty(expected, next, events[1..]);
    }
  }

  /** A correct shape held for less than the debounce window is counted once. */
  lemma DebounceCountsOnce()
    ensures LockedRun([Montana, Montana], Bookkeeping([], -1000, false),
                      [Event(Some(Montana), 0), Event(Some(Montana), 100)]).detected == [Montana]
  {
  }

  /** With the configured sequence, one MONTANA seen more than 200 ms after
      start-up completes the sequence, which switches to COUNTDOWN. */
  lemma SingleMontanaCompletes(start: int)
    ensures LockedRun(ExpectedSequence, Bookkeeping([], start, false),
                      [Event(Some(Montana), start + 201)]).detected == ExpectedSequence
  {
  }

  /** The squared distance between the tracker's integer position and the
      recorded initial position. */
  function SquaredDistance(p: Point, q: Position): real
  {
    (p.x as real - q.x) * (p.x as real - q.x) + (p.y as real - q.y) * (p.y as real - q.y)
  }

  /** A square exceeds 700 squared exactly when the number is beyond 700
      on either side. */
  lemma SquareBeyond(d: real)
    ensures d * d > 490000.0 <==> d > 700.0 || d < -700.0
  {
    if d > 700.0 {
      assert d * d > 700.0 * d;
    } else if d < -700.0 {
      assert d * d > -700.0 * d;
    } else if d >= 0.0 {
      assert d * d <= 700.0 * d;
    } else {
      assert d * d <= -700.0 * d;
    }
  }

  /** `sqrt(d2) > MIN_MOVEMENT`, stated without the square root. Along
      either axis, it holds exactly when the position is more than 700
      pixels away. */
  predicate FarEnough(p: Point, q: Position)
    ensures p.y as real == q.y ==> (FarEnough(p, q) <==> p.x as real - q.x > 700.0 || q.x - p.x as real > 700.0)
    ensures p.x as real == q.x ==> (FarEnough(p, q) <==> p.y as real - q.y > 700.0 || q.y - p.y as real > 700.0)
  {
    SquareBeyond(p.x as real - q.x);
    SquareBeyond(p.y as real - q.y);
    SquaredDistance(p, q) > (MinMovement * MinMovement) as real
  }

  /** The distance test compares against 700 exactly: 701 pixels along an
      axis unlocks, 700 does not. */
  lemma FarEnoughThreshold()
    ensures FarEnough(Point(801, 100), Position(100.0, 100.0))
    ensures !FarEnough(Point(800, 100), Position(100.0, 100.0))
  {
  }

  /** One camera frame as the core sees it: lost (the loop retries), or the
      ROI contours, the foreground blobs and the estimator's two outputs. */
  datatype Frame =
    | Lost
    | Captured(contours: seq<Contour>, blobs: seq<Blob>, predicted: Point, corrected: Point, time: int)

  /** The variables of the loop as a value, with the tracker's fields. */
  datatype Snapshot = Snapshot(
    state: State,
    detected: seq<Label>,
    lastDetection: int,
    resetMessage: bool,
    countdownStart: int,
    shutdownStart: int,
    tracker: Option<TrackerView>)

  function BookOf(s: Snapshot): Bookkeeping
  {
    Bookkeeping(s.detected, s.lastDetection, s.resetMessage)
  }

  /** While BLOQUEADO the detected sequence is a proper prefix of the
      expected one, so `EXPECTED_SEQUENCE[len(detected_sequence)]` is in
      bounds; from TRACKING on there is a tracker. */
  predicate SnapValid(expected: seq<Label>, s: Snapshot)
  {
    && |expected| > 0
    && (s.state == Bloqueado ==> s.detected < expected)
    && (s.state == Tracking || s.state == Unlocked ==> s.tracker.Some? && ViewValid(s.tracker.value))
  }

  /** A BLOQUEADO frame in which the classifier reported `pattern`. */
  function NextLocked(expected: seq<Label>, s: Snapshot, pattern: Option<Label>, now: int): (r: Snapshot)
    requires SnapValid(expected, s) && s.state == Bloqueado
    ensures SnapValid(expected, r)
    ensures r.state == Countdown <==> r.detected == expected
    ensures r.state == Bloqueado || r.state == Countdown
  {
    var b := LockedUpdate(expected, BookOf(s), pattern, now);
    if b.detected == expected then
      s.(state := Countdown, detected := b.detected, lastDetection := b.lastDetection,
         resetMessage := false, countdownStart := now)
    else s.(detected := b.detected, lastDetection := b.lastDetection, resetMessage := b.resetMessage)
  }

  /** A COUNTDOWN frame: once the shown number reaches 0, tracking starts
      with a fresh tracker. */
  function NextCountdown(s: Snapshot, now: int): Snapshot
    requires s.state == Countdown
  {
    if Remaining(now - s.countdownStart) <= 0 then s.(state := Tracking, tracker := Some(FreshView)) else s
  }

  /** A TRACKING frame: the tracker updates, and the alarm unlocks once the
      tracker is active and the reported position is far enough from the
      initial one. */
  function NextTracking(s: Snapshot, blobs: seq<Blob>, predicted: Point, corrected: Point, now: int): Snapshot
    requires s.state == Tracking && s.tracker.Some? && ViewValid(s.tracker.value)
  {
    var v := NextView(s.tracker.value, blobs);
    var pos := if Measurement(blobs).Some? then corrected else predicted;
    if !v.firstDetection && v.initialPos.Some? && FarEnough(pos, v.initialPos.value) then
      s.(state := Unlocked, shutdownStart := now, tracker := Some(v))
    else s.(tracker := Some(v))
  }

  /** The outcome of one captured frame: the next snapshot, and whether the
      loop ends. */
  datatype Outcome = Outcome(next: Snapshot, terminate: bool)

  /** One iteration of the `while True` loop for a captured frame. */
  ghost function Next(expected: seq<Label>, s: Snapshot, f: Frame): (o: Outcome)
    requires SnapValid(expected, s) && f.Captured?
    ensures SnapValid(expected, o.next)
    ensures Rank(s.state) <= Rank(o.next.state) <= Rank(s.state) + 1
    ensures o.terminate ==> s.state == Unlocked && f.time - s.shutdownStart >= 6000
    ensures s.state == Bloqueado ==>
      var b := LockedUpdate(expected, BookOf(s), PatternOf(f.contours, RoiSize, RoiSize), f.time);
      && o.next.detected == b.detected && o.next.lastDetection == b.lastDetection
      && (o.next.state == Countdown <==> o.next.detected == expected)
      && (o.next.state == Countdown ==> o.next.countdownStart == f.time && !o.next.resetMessage)
      && (o.next.state == Bloqueado ==>
            o.next.countdownStart == s.countdownStart && o.next.resetMessage == b.resetMessage)
      && o.next.shutdownStart == s.shutdownStart && o.next.tracker == s.tracker
    ensures s.state == Countdown ==>
      && (o.next.state == Tracking <==> f.time - s.countdownStart >= 6000)
      && (o.next.state == Tracking ==> o.next == s.(state := Tracking, tracker := Some(FreshView)))
      && (o.next.state == Countdown ==> o.next == s)
    ensures s.state == Tracking ==>
      && o.next.tracker == Some(NextView(s.tracker.value, f.blobs))
      && (o.next.state == Unlocked <==>
            !o.next.tracker.value.firstDetection
            && FarEnough(if Measurement(f.blobs).Some? then f.corrected else f.predicted,
                         o.next.tracker.value.initialPos.value))
      && (o.next.state == Unlocked ==> o.next == s.(state := Unlocked, shutdownStart := f.time, tracker := o.next.tracker))
      && (o.next.state == Tracking ==> o.next == s.(tracker := o.next.tracker))
    ensures s.state == Unlocked ==> o.next == s && (o.terminate <==> f.time - s.shutdownStart >= 6000)
  {
    match s.state
    case Bloqueado => Outcome(NextLocked(expected, s, PatternOf(f.contours, RoiSize, RoiSize), f.time), false)
    case Countdown => Outcome(NextCountdown(s, f.time), false)
    case Tracking => Outcome(NextTracking(s, f.blobs, f.predicted, f.corrected, f.time), false)
    case Unlocked => Outcome(s, Remaining(f.time - s.shutdownStart) <= 0)
  }

  /** Where a stream of frames leaves the loop: the final snapshot, whether
      the loop ended, and how many frames it read. */
  datatype RunResult = RunResult(snapshot: Snapshot, terminated: bool, consumed: nat)

  /** The loop over a finite stream of frames: lost frames are skipped, and
      the loop stops at the frame where UNLOCKED's countdown ends. */
  ghost function RunFrames(expected: seq<Label>, s: Snapshot, frames: seq<Frame>): (r: RunResult)
    requires SnapValid(expected, s)
    ensures SnapValid(expected, r.snapshot)
    ensures r.consumed <= |frames|
    ensures Rank(s.state) <= Rank(r.snapshot.state)
    ensures !r.terminated ==> r.consumed == |frames|
    ensures r.terminated ==>
      && r.consumed > 0 && frames[r.consumed - 1].Captured?
      && r.snapshot.state == Unlocked
      && frames[r.consumed - 1].time - r.snapshot.shutdownStart >= 6000
    ensures (forall i :: 0 <= i < |frames| ==> frames[i].Lost?) ==> r == RunResult(s, false, |frames|)
    decreases |frames|
  {
    if frames == [] then RunResult(s, false, 0)
    else if frames[0].Lost? then
      var rest := RunFrames(expected, s, frames[1..]);
      rest.(consumed := rest.consumed + 1)
    else
      var o := Next(expected, s, frames[0]);
      if o.terminate then RunResult(o.next, true, 1)
      else
        var rest := RunFrames(expected, o.next, frames[1..]);
        rest.(consumed := rest.consumed + 1)
  }

  /** `r` with `n` more frames read before it. */
  function Shift(r: RunResult, n: nat): RunResult
  {
    r.(consumed := r.consumed + n)
  }

  /** A lost frame is read and skipped. */
  lemma RunFramesLost(expected: seq<Label>, s: Snapshot, rest: seq<Frame>)
    requires SnapValid(expected, s)
    ensures RunFrames(expected, s, [Lost] + rest) == Shift(RunFrames(expected, s, rest), 1)
  {
    assert ([Lost] + rest)[1..] == rest;
  }

  /** A captured frame takes one step of `Next`, and stops the loop when
      that step terminates. */
  lemma RunFramesCaptured(expected: seq<Label>, s: Snapshot, f: Frame, rest: seq<Frame>)
    requires SnapValid(expected, s) && f.Captured?
    ensures var o := Next(expected, s, f);
      RunFrames(expected, s, [f] + rest) ==
        if o.terminate then RunResult(o.next, true, 1) else Shift(RunFrames(expected, o.next, rest), 1)
  {
    assert ([f] + rest)[1..] == rest;
  }

  /** The local variables of `main` that survive from one frame to the next. */
  class Sequencer {
    const expected: seq<Label>
    var state: State
    var detected: seq<Label>
    var lastDetection: int
    var resetMessage: bool
    var countdownStart: int
    var shutdownStart: int
    var tracker: AutoKalmanTracker?

    /** The variables, and the tracker's fields, as a value. */
    function Snap(): Snapshot
      reads this, tracker
    {
      Snapshot(state, detected, lastDetection, resetMessage, countdownStart, shutdownStart,
               if tracker == null then None else Some(tracker.View()))
    }

    ghost predicate Valid()
      reads this, tracker
    {
      SnapValid(expected, Snap())
    }

    function Book(): Bookkeeping
      reads this
    {
      Bookkeeping(detected, lastDetection, resetMessage)
    }

    constructor (expected: seq<Label>, now: int)
      requires |expected| > 0
      ensures Valid()
      ensures this.expected == expected && state == Bloqueado
      ensures detected == [] && lastDetection == now && !resetMessage
      ensures countdownStart == 0 && tracker == null
    {
      this.expected := expected;
      state := Bloqueado;
      detected := [];
      lastDetection := now;
      resetMessage := false;
      countdownStart := 0;
      shutdownStart := 0;
      tracker := null;
    }

    /** A BLOQUEADO frame in which the classifier reported `pattern`. */
    method StepLocked(pattern: Option<Label>, now: int)
      requires Valid() && state == Bloqueado
      modifies this
      ensures Valid()
      ensures Snap() == NextLocked(expected, old(Snap()), pattern, now)
      ensures Book().detected == LockedUpdate(expected, old(Book()), pattern, now).detected
      ensures lastDetection == LockedUpdate(expected, old(Book()), pattern, now).lastDetection
      ensures state == (if detected == expected then Countdown else Bloqueado)
      ensures state == Countdown ==> countdownStart == now && !resetMessage
      ensures state == Bloqueado ==>
        countdownStart == old(countdownStart) && resetMessage == LockedUpdate(expected, old(Book()), pattern, now).resetMessage
      ensures shutdownStart == old(shutdownStart) && tracker == old(tracker)
    {
      if pattern.Some? {
        var expectedShape := expected[|detected|];
        var isCorrect := pattern.value == expectedShape;
        if isCorrect && now - lastDetection > DebounceMs {
          detected := detected + [pattern.value];
          lastDetection := now;
          resetMessage := false;
        } else if !isCorrect && now - lastDetection > ResetMs {
          detected := [];
          resetMessage := true;
          lastDetection := now;
        }
      }
      if detected == expected {
        state := Countdown;
        countdownStart := now;
        resetMessage := false;
      }
    }

    /** A COUNTDOWN frame: once the shown number reaches 0, a fresh tracker
        is created and tracking starts. */
    method StepCountdown(now: int)
      requires Valid() && state == Countdown
      modifies this
      ensures Valid()
      ensures Snap() == NextCountdown(old(Snap()), now)
      ensures Remaining(now - countdownStart) <= 0 ==>
        && state == Tracking && fresh(tracker)
        && !tracker.Active() && tracker.initialPos.None?
        && tracker.bestW == 100 && tracker.bestH == 100
      ensures Remaining(now - countdownStart) > 0 ==> state == Countdown && tracker == old(tracker)
      ensures detected == old(detected) && lastDetection == old(lastDetection) && resetMessage == old(resetMessage)
      ensures countdownStart == old(countdownStart) && shutdownStart == old(shutdownStart)
    {
      var elapsed := now - countdownStart;
      var remaining := Remaining(elapsed);
      if remaining <= 0 {
        state := Tracking;
        tracker := new AutoKalmanTracker();
      }
    }

    /** A TRACKING frame: update the tracker and unlock once it is active
        and more than 700 pixels from where it first saw the person. */
    method StepTracking(blobs: seq<Blob>, predicted: Point, corrected: Point, now: int)
        returns (pos: Point, active: bool)
      requires Valid() && state == Tracking
      modifies this, tracker
      ensures Valid() && tracker == old(tracker)
      ensures Snap() == NextTracking(old(Snap()), blobs, predicted, corrected, now)
      ensures state == Unlocked || state == Tracking
      ensures pos == (if Measurement(blobs).Some? then corrected else predicted)
      ensures Measurement(blobs).Some? ==>
        && tracker.bestW == Measurement(blobs).value.w && tracker.bestH == Measurement(blobs).value.h
        && tracker.initialPos == (if old(tracker.initialPos).None? then Some(Center(Measurement(blobs).value))
                                  else old(tracker.initialPos))
      ensures Measurement(blobs).None? ==> tracker.View() == old(tracker.View())
      ensures active == tracker.Active()
      ensures active <==> old(tracker.Active()) || Measurement(blobs).Some?
      ensures old(tracker.initialPos).Some? ==> tracker.initialPos == old(tracker.initialPos)
      ensures state == Unlocked <==> active && FarEnough(pos, tracker.initialPos.value)
      ensures state == Unlocked ==> shutdownStart == now
      ensures state == Tracking ==> shutdownStart == old(shutdownStart)
      ensures detected == old(detected) && lastDetection == old(lastDetection) && resetMessage == old(resetMessage)
      ensures countdownStart == old(countdownStart)
    {
      var w, h;
      pos, w, h, active := tracker.Update(blobs, predicted, corrected);
      if active && tracker.initialPos.Some? {
        var initial := tracker.initialPos.value;
        if FarEnough(pos, initial) {
          state := Unlocked;
          shutdownStart := now;
        }
      }
    }

    /** An UNLOCKED frame: the loop ends once the shown number reaches 0. */
    method StepUnlocked(now: int) returns (terminate: bool)
      requires Valid() && state == Unlocked
      ensures terminate == (Remaining(now - shutdownStart) <= 0)
      ensures terminate <==> now - shutdownStart >= 6000
    {
      var elapsed := now - shutdownStart;
      var remaining := Remaining(elapsed);
      terminate := remaining <= 0;
    }

    /** One iteration of the `while True` loop for a captured frame. */
    method Step(contours: seq<Contour>, blobs: seq<Blob>, predicted: Point, corrected: Point, now: int)
        returns (pattern: Option<Label>, terminate: bool)
      requires Valid()
      modifies this, tracker
      ensures Valid()
      ensures Snap() == Next(expected, old(Snap()), Captured(contours, blobs, predicted, corrected, now)).next
      ensures terminate == Next(expected, old(Snap()), Captured(contours, blobs, predicted, corrected, now)).terminate
      ensures pattern == (if old(state) == Bloqueado then PatternOf(contours, RoiSize, RoiSize) else None)
      ensures Rank(old(state)) <= Rank(state) <= Rank(old(state)) + 1
      ensures terminate ==> old(state) == Unlocked
      ensures tracker == old(tracker) || fresh(tracker)
      ensures tracker != old(tracker) ==> old(state) == Countdown && state == Tracking
      ensures old(state) == Bloqueado ==>
        && (pattern.None? <==> forall k :: 0 <= k < |contours| ==> !Survives(contours[k], RoiSize, RoiSize))
        && (pattern.Some? ==> exists k: nat :: IsBest(contours, RoiSize, RoiSize, k) && pattern.value == Classify(contours[k]))
    {
      pattern, terminate := None, false;
      match state {
        case Bloqueado =>
          var found := DetectPattern(contours, RoiSize, RoiSize);
          if found.Some? {
            pattern := Some(found.value.pattern);
          }
          StepLocked(pattern, now);
        case Countdown =>
          StepCountdown(now);
        case Tracking =>
          var pos, active := StepTracking(blobs, predicted, corrected, now);
        case Unlocked =>
          terminate := StepUnlocked(now);
      }
    }

    /** The `while True` loop over a finite stream of frames: lost frames are
        skipped, and the loop stops when UNLOCKED's countdown ends. */
    method Run(frames: seq<Frame>) returns (processed: nat, terminated: bool)
      requires Valid()
      modifies this, tracker
      ensures Valid()
      ensures var r := RunFrames(expected, old(Snap()), frames);
        Snap() == r.snapshot && terminated == r.terminated && processed == r.consumed
      ensures (forall i :: 0 <= i < |frames| ==> frames[i].Lost?) ==> tracker == old(tracker)
    {
      processed, terminated := 0, false;
      ghost var total := RunFrames(expected, Snap(), frames);
      while processed < |frames|
        invariant Valid()
        invariant processed <= |frames|
        invariant tracker == old(tracker) || fresh(tracker)
        invariant (forall i :: 0 <= i < processed ==> frames[i].Lost?) ==> tracker == old(tracker)
        invariant !terminated
        invariant total == Shift(RunFrames(expected, Snap(), frames[processed..]), processed)
        decreases |frames| - processed
      {
        var frame := frames[processed];
        ghost var before := Snap();
        ghost var rest := frames[processed + 1..];
        assert frames[processed..] == [frame] + rest;
        processed := processed + 1;
        if frame.Lost? {
          RunFramesLost(expected, before, rest);
          continue;
        }
        RunFramesCaptured(expected, before, frame, rest);
        var pattern, terminate := Step(frame.contours, frame.blobs, frame.predicted, frame.corrected, frame.time);
        if terminate {
          terminated := true;
          break;
        }
      }
      if !terminated {
        assert frames[processed..] == [];
      }
    }
  }
}
