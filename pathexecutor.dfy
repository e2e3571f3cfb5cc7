/** The per-tick control rules that follow a planned path: off-course
    detection, steering from the needed curvature, the handbrake, the
    throttle and boost schedule, the flip request and the jump segment; and
    the simpler rules used when only a bare target is known. Angles, sines,
    vector lengths and the times of the acceleration tables are inputs. */
module Paths {
  import opened Common
  import Constants

  /** Ground speed above which a forward flip may be requested. */
  const MinFlipSpeed: real := 1100.0

  /** Proportional gain of the steering controller. */
  const P: real := 1.0

  datatype SegmentType = Straight | Arc | Jump

  /** A piece of a planned path; `flatDistance` is its length on the ground. */
  datatype Segment = Segment(segmentType: SegmentType, start: Vector3, end: Vector3, flatDistance: real)

  /** Where the orientation controls are told to point the car. */
  datatype Aim = Unaimed | PointAlong(direction: Vector3) | FlatLanding

  /** The part of the car's state the rules read; `speed` is the length of
      `velocity`, `groundSpeed` that of its ground part, and
      `noseVelocityAngle` the angle between the nose and the velocity. */
  datatype CarView = CarView(
    position: Vector3, velocity: Vector3, speed: real, groundSpeed: real,
    angularVelocityZ: real, noseVelocityAngle: real, boost: int,
    isSupersonic: bool, hasWheelContact: bool, elapsedSeconds: real)

  /** The tuning of the path: the lead time (seconds) and the lead frames. */
  datatype Lead = Lead(leadTime: real, leadFrames: real)

  /** Times the acceleration tables give for covering the distance to the
      target with and without boost. */
  datatype AccelTimes = AccelTimes(boosted: real, nonBoosted: real)

  /** The controls of one tick, set field by field. */
  class Controls {
    var steer: real
    var throttle: real
    var boost: bool
    var slide: bool
    var jump: bool
    var aim: Aim

    constructor()
      ensures steer == 0.0 && throttle == 0.0
      ensures !boost && !slide && !jump && aim == Unaimed
    {
      steer, throttle := 0.0, 0.0;
      boost, slide, jump := false, false, false;
      aim := Unaimed;
    }
  }

  // ---------------------------------------------------------------------
  // Off course

  /** The path is off course when its schedule has run out or the target is
      further than two lead times at top boosted speed. */
  predicate OffCourse(endTime: real, elapsedSeconds: real, targetDistance: real, lead: Lead)
  {
    endTime < elapsedSeconds || targetDistance > Constants.BoostedMaxSpeed * 2.0 * lead.leadTime
  }

  /** Off course is never undone by a later clock, an earlier scheduled end
      or a farther target; and a path on schedule whose target is reached is
      on course for any non-negative lead time. */
  lemma OffCourseMonotone(endTime: real, elapsedSeconds: real, targetDistance: real,
                          endTime': real, elapsedSeconds': real, targetDistance': real, lead: Lead)
    requires endTime' <= endTime && elapsedSeconds <= elapsedSeconds' && targetDistance <= targetDistance'
    ensures OffCourse(endTime, elapsedSeconds, targetDistance, lead) ==>
      OffCourse(endTime', elapsedSeconds', targetDistance', lead)
    ensures lead.leadTime >= 0.0 && elapsedSeconds <= endTime ==>
      !OffCourse(endTime, elapsedSeconds, 0.0, lead)
  {
  }

  // ---------------------------------------------------------------------
  // Steering

  /** The gain on the steering: gentle on straight segments. */
  function SegmentModifier(t: SegmentType): (m: real)
    ensures m > 0.0
    ensures m == 0.5 <==> t == Straight
  {
    if t == Straight then 0.5 else 2.0
  }

  /** The curvature of the circle through the car and a target at distance
      `targetDistance` whose correction angle has sine `sinCorrection`,
      computed as `1 / (distance / (2 sin))`; with a zero sine the inner
      division is infinite and the result 0. */
  function CorrectionCurvature(sinCorrection: real, targetDistance: real): (k: real)
    requires targetDistance > 0.0
    ensures k * targetDistance == 2.0 * sinCorrection
  {
    if sinCorrection == 0.0 then 0.0
    else 1.0 / (targetDistance / (2.0 * sinCorrection))
  }

  /** Speeds at which the steering controller divides by a non-zero
      maximum angular velocity. */
  predicate SteerableSpeed(groundSpeed: real)
  {
    0.0 < groundSpeed < Constants.CurvatureLimit
  }

  /** The steering command: the segment gain times the sum of a proportional
      term (needed over maximum angular velocity) and a derivative term (the
      angular-velocity error over the maximum, times a tenth of the lead
      frames). */
  function SteerCommand(segmentType: SegmentType, sinCorrection: real, targetDistance: real,
                        groundSpeed: real, angularVelocityZ: real, lead: Lead): real
    requires targetDistance > 0.0 && SteerableSpeed(groundSpeed)
  {
    var correctionAngularVelocity := CorrectionCurvature(sinCorrection, targetDistance) * groundSpeed;
    var maxAngularVelocity := Constants.Curvature(groundSpeed) * groundSpeed;
    PositiveProduct(Constants.Curvature(groundSpeed), groundSpeed);
    var diffAngularVelocity := correctionAngularVelocity - angularVelocityZ;
    var p := (correctionAngularVelocity / maxAngularVelocity) * P;
    var d := (diffAngularVelocity / maxAngularVelocity) * (0.1 * lead.leadFrames);
    SegmentModifier(segmentType) * (p + d)
  }

  lemma PositiveProduct(a: real, b: real)
    requires a > 0.0 && b > 0.0
    ensures a * b > 0.0
  {
  }

  /** When the car already turns at the needed rate the derivative term
      vanishes and the command is the gain times the needed curvature over
      the largest curvature at this speed. */
  lemma SteerAtMatchedRate(segmentType: SegmentType, sinCorrection: real, targetDistance: real,
                           groundSpeed: real, lead: Lead)
    requires targetDistance > 0.0 && SteerableSpeed(groundSpeed)
    ensures var k := CorrectionCurvature(sinCorrection, targetDistance);
      SteerCommand(segmentType, sinCorrection, targetDistance, groundSpeed, k * groundSpeed, lead)
        == SegmentModifier(segmentType) * (k / Constants.Curvature(groundSpeed))
  {
    var k := CorrectionCurvature(sinCorrection, targetDistance);
    var maxK := Constants.Curvature(groundSpeed);
    PositiveProduct(maxK, groundSpeed);
    CancelFactor(k, maxK, groundSpeed);
  }

  /** A common non-zero factor cancels from a quotient. */
  lemma CancelFactor(a: real, b: real, c: real)
    requires b != 0.0 && c != 0.0
    ensures (a * c) / (b * c) == a / b
  {
    assert (a / b) * (b * c) == a * c;
  }

  /** With non-negative lead frames, a target on the positive side (positive
      sine) and a car not already turning that way makes the command
      positive, and symmetrically for the negative side: the car always
      steers toward the target. */
  lemma SteerTowardTarget(segmentType: SegmentType, sinCorrection: real, targetDistance: real,
                          groundSpeed: real, angularVelocityZ: real, lead: Lead)
    requires targetDistance > 0.0 && SteerableSpeed(groundSpeed) && lead.leadFrames >= 0.0
    ensures sinCorrection > 0.0 && angularVelocityZ <= 0.0 ==>
      SteerCommand(segmentType, sinCorrection, targetDistance, groundSpeed, angularVelocityZ, lead) > 0.0
    ensures sinCorrection < 0.0 && angularVelocityZ >= 0.0 ==>
      SteerCommand(segmentType, sinCorrection, targetDistance, groundSpeed, angularVelocityZ, lead) < 0.0
  {
    var w := CorrectionCurvature(sinCorrection, targetDistance) * groundSpeed;
    var maxW := Constants.Curvature(groundSpeed) * groundSpeed;
    SteerCommandTerms(segmentType, sinCorrection, targetDistance, groundSpeed, angularVelocityZ, lead);
    RateSigns(sinCorrection, targetDistance, groundSpeed);
    ControllerSign(SegmentModifier(segmentType), w, maxW, angularVelocityZ, 0.1 * lead.leadFrames);
  }

  /** The needed rate has the sign of the sine and the largest rate is
      positive. */
  lemma RateSigns(sinCorrection: real, targetDistance: real, groundSpeed: real)
    requires targetDistance > 0.0 && SteerableSpeed(groundSpeed)
    ensures Constants.Curvature(groundSpeed) * groundSpeed > 0.0
    ensures sinCorrection > 0.0 ==> CorrectionCurvature(sinCorrection, targetDistance) * groundSpeed > 0.0
    ensures sinCorrection < 0.0 ==> CorrectionCurvature(sinCorrection, targetDistance) * groundSpeed < 0.0
  {
    var k := CorrectionCurvature(sinCorrection, targetDistance);
    PositiveProduct(Constants.Curvature(groundSpeed), groundSpeed);
    SignOfCurvature(sinCorrection, targetDistance);
    if sinCorrection > 0.0 {
      PositiveProduct(k, groundSpeed);
    } else if sinCorrection < 0.0 {
      PositiveProduct(-k, groundSpeed);
      assert -k * groundSpeed == -(k * groundSpeed);
    }
  }

  /** The steering command written out over its needed and largest rates. */
  lemma SteerCommandTerms(segmentType: SegmentType, sinCorrection: real, targetDistance: real,
                          groundSpeed: real, angularVelocityZ: real, lead: Lead)
    requires targetDistance > 0.0 && SteerableSpeed(groundSpeed)
    ensures var w := CorrectionCurvature(sinCorrection, targetDistance) * groundSpeed;
      var maxW := Constants.Curvature(groundSpeed) * groundSpeed;
      SteerCommand(segmentType, sinCorrection, targetDistance, groundSpeed, angularVelocityZ, lead)
        == SegmentModifier(segmentType) * ((w / maxW) * P + ((w - angularVelocityZ) / maxW) * (0.1 * lead.leadFrames))
  {
  }

  /** The sign of the controller output for a gain `m`, a needed rate `w`,
      a largest rate `maxW` and a current rate `a`. */
  lemma ControllerSign(m: real, w: real, maxW: real, a: real, frames: real)
    requires m > 0.0 && maxW > 0.0 && frames >= 0.0
    ensures w > 0.0 && a <= 0.0 ==> m * ((w / maxW) * P + ((w - a) / maxW) * frames) > 0.0
    ensures w < 0.0 && a >= 0.0 ==> m * ((w / maxW) * P + ((w - a) / maxW) * frames) < 0.0
  {
    var s := (w / maxW) * P + ((w - a) / maxW) * frames;
    if w > 0.0 && a <= 0.0 {
      assert w / maxW > 0.0;
      assert (w - a) / maxW >= 0.0;
      assert ((w - a) / maxW) * frames >= 0.0;
      PositiveProduct(m, s);
    } else if w < 0.0 && a >= 0.0 {
      assert w / maxW < 0.0;
      assert (w - a) / maxW <= 0.0;
      assert -(((w - a) / maxW) * frames) == ((a - w) / maxW) * frames;
      assert ((a - w) / maxW) * frames >= 0.0;
      PositiveProduct(m, -s);
      assert m * s == -(m * -s);
    }
  }

  /** The needed curvature has the sign of the sine. */
  lemma SignOfCurvature(sinCorrection: real, targetDistance: real)
    requires targetDistance > 0.0
    ensures sinCorrection > 0.0 ==> CorrectionCurvature(sinCorrection, targetDistance) > 0.0
    ensures sinCorrection < 0.0 ==> CorrectionCurvature(sinCorrection, targetDistance) < 0.0
  {
  }

  // ---------------------------------------------------------------------
  // Handbrake

  /** The handbrake rule as written: the signed needed curvature is compared
      with 1.1 times the largest curvature, above a ground speed of 1000. */
  predicate SlideAsWritten(correctionCurvature: real, maxCurvature: real, groundSpeed: real)
  {
    correctionCurvature > maxCurvature * 1.1 && groundSpeed > 1000.0
  }

  /** As written, a turn toward negative angles never slides, however tight:
      at ground speed 1200 a target 100 away at a right angle on the positive
      side calls for the handbrake and the mirror-image target does not. */
  lemma SlideAsWrittenIgnoresNegativeTurns(sinCorrection: real, targetDistance: real, groundSpeed: real)
    requires targetDistance > 0.0 && SteerableSpeed(groundSpeed) && sinCorrection <= 0.0
    ensures !SlideAsWritten(CorrectionCurvature(sinCorrection, targetDistance), Constants.Curvature(groundSpeed), groundSpeed)
    ensures SlideAsWritten(CorrectionCurvature(1.0, 100.0), Constants.Curvature(1200.0), 1200.0)
    ensures !SlideAsWritten(CorrectionCurvature(-1.0, 100.0), Constants.Curvature(1200.0), 1200.0)
  {
    if sinCorrection < 0.0 {
      SignOfCurvature(sinCorrection, targetDistance);
    }
    assert CorrectionCurvature(1.0, 100.0) == 0.02;
    assert CorrectionCurvature(-1.0, 100.0) == -0.02;
  }

  /** The handbrake rule with the size of the needed curvature compared, so
      that it treats both turning directions alike. */
  predicate Slide(correctionCurvature: real, maxCurvature: real, groundSpeed: real)
  {
    Abs(correctionCurvature) > maxCurvature * 1.1 && groundSpeed > 1000.0
  }

  /** The corrected rule agrees with the written one on positive turns and
      gives a target and its mirror image the same answer. */
  lemma SlideMirrorSymmetric(sinCorrection: real, targetDistance: real, groundSpeed: real)
    requires targetDistance > 0.0 && SteerableSpeed(groundSpeed)
    ensures var maxK := Constants.Curvature(groundSpeed);
      Slide(CorrectionCurvature(-sinCorrection, targetDistance), maxK, groundSpeed)
        == Slide(CorrectionCurvature(sinCorrection, targetDistance), maxK, groundSpeed)
    ensures var maxK := Constants.Curvature(groundSpeed);
      sinCorrection >= 0.0 ==>
        Slide(CorrectionCurvature(sinCorrection, targetDistance), maxK, groundSpeed)
          == SlideAsWritten(CorrectionCurvature(sinCorrection, targetDistance), maxK, groundSpeed)
  {
    var k := CorrectionCurvature(sinCorrection, targetDistance);
    var k' := CorrectionCurvature(-sinCorrection, targetDistance);
    assert (k + k') * targetDistance == 0.0;
    assert k' == -k;
    if sinCorrection > 0.0 {
      SignOfCurvature(sinCorrection, targetDistance);
    }
  }

  // ---------------------------------------------------------------------
  // Throttle and boost

  /** The throttle and, when it is set at all, the boost of one tick. */
  datatype ThrottleCommand = ThrottleCommand(throttle: real, boost: Option<bool>)

  /** Behind schedule (more than a lead time to go): full throttle, boosting
      when supersonic, if even boosting takes more than a lead time, and
      otherwise a throttle proportional to the time full throttle saves;
      within 0.4 lead times of arrival: brake; in between: coast. */
  function ThrottleRule(timeToTarget: real, accel: AccelTimes, isSupersonic: bool, lead: Lead): ThrottleCommand
    requires lead.leadTime > 0.0
  {
    if timeToTarget > lead.leadTime then
      if accel.boosted > lead.leadTime then ThrottleCommand(1.0, Some(isSupersonic))
      else
        var savings := timeToTarget - accel.nonBoosted;
        ThrottleCommand((savings * 10.0) / lead.leadTime, None)
    else if timeToTarget > lead.leadTime * 0.4 then ThrottleCommand(0.0, None)
    else ThrottleCommand(-1.0, None)
  }

  /** The schedule by time to target: braking exactly within 0.4 lead times,
      coasting up to a lead time, and beyond it either full throttle with
      the boost set, or a throttle 10 times the time saved per lead time,
      which is positive exactly when the car is slower than full throttle. */
  lemma ThrottleSchedule(timeToTarget: real, accel: AccelTimes, isSupersonic: bool, lead: Lead)
    requires lead.leadTime > 0.0
    ensures var c := ThrottleRule(timeToTarget, accel, isSupersonic, lead);
      && (c.boost.Some? <==> timeToTarget > lead.leadTime && accel.boosted > lead.leadTime)
      && (c.boost.Some? ==> c.throttle == 1.0 && c.boost.value == isSupersonic)
      && (timeToTarget <= 0.4 * lead.leadTime ==> c.throttle == -1.0)
      && (0.4 * lead.leadTime < timeToTarget <= lead.leadTime ==> c.throttle == 0.0)
      && (timeToTarget > lead.leadTime && c.boost.None? ==>
            c.throttle * lead.leadTime == (timeToTarget - accel.nonBoosted) * 10.0
            && (c.throttle > 0.0 <==> accel.nonBoosted < timeToTarget))
  {
    var c := ThrottleRule(timeToTarget, accel, isSupersonic, lead);
    if timeToTarget > lead.leadTime && accel.boosted <= lead.leadTime {
      var s := (timeToTarget - accel.nonBoosted) * 10.0;
      assert c.throttle == s / lead.leadTime;
      assert c.throttle * lead.leadTime == s;
      if c.throttle > 0.0 {
        PositiveProduct(c.throttle, lead.leadTime);
      } else {
        assert -c.throttle >= 0.0;
        assert -c.throttle * lead.leadTime >= 0.0;
      }
    }
  }

  // ---------------------------------------------------------------------
  // Flip

  /** Enough straight road left for a flip: the segment's ground length,
      over the ground speed plus the flip's extra 400, exceeds 1. */
  predicate HasFlipTime(segment: Segment, groundSpeed: real)
    requires groundSpeed > 0.0
  {
    segment.flatDistance / (groundSpeed + 400.0) > 1.0
  }

  /** A forward flip is requested when fast, on a straight segment with
      room left, steering gently and travelling nose first. */
  predicate FlipRule(segment: Segment, groundSpeed: real, steer: real, noseVelocityAngle: real)
    requires groundSpeed > 0.0
  {
    && groundSpeed > MinFlipSpeed
    && segment.segmentType == Straight
    && HasFlipTime(segment, groundSpeed)
    && Abs(steer) < 1.0
    && Abs(noseVelocityAngle) < 0.5
  }

  /** Room for a flip means the segment is longer than the ground speed plus
      400; a flip is never requested below 1100 or off a straight segment. */
  lemma FlipNeedsRoom(segment: Segment, groundSpeed: real, steer: real, noseVelocityAngle: real)
    requires groundSpeed > 0.0
    ensures HasFlipTime(segment, groundSpeed) <==> segment.flatDistance > groundSpeed + 400.0
    ensures FlipRule(segment, groundSpeed, steer, noseVelocityAngle) ==>
      groundSpeed > MinFlipSpeed && segment.segmentType == Straight && segment.flatDistance > 1500.0
  {
    DivExceedsOne(segment.flatDistance, groundSpeed + 400.0);
  }

  /** A quotient by a positive number exceeds 1 exactly when the dividend
      exceeds the divisor. */
  lemma DivExceedsOne(a: real, g: real)
    requires g > 0.0
    ensures a / g > 1.0 <==> a > g
  {
    var q := a / g;
    assert q * g == a;
    if q > 1.0 {
      assert (q - 1.0) * g > 0.0;
      assert q * g - g == (q - 1.0) * g;
    } else {
      assert (1.0 - q) * g >= 0.0;
      assert g - q * g == (1.0 - q) * g;
    }
  }

  // ---------------------------------------------------------------------
  // Per-tick methods

  /** Inputs of the steering rule: the sine of the correction angle toward
      the lead target and the distance to it. */
  datatype Correction = Correction(sinCorrection: real, targetDistance: real)

  /** The tick's requirements on divisions: a moving car below the speed at
      which the curvature table is 0, and a target not at the car. */
  predicate Drivable(car: CarView, correction: Correction, lead: Lead)
  {
    && SteerableSpeed(car.groundSpeed)
    && car.speed > 0.0
    && correction.targetDistance > 0.0
    && lead.leadTime > 0.0
  }

  /** Steering, handbrake, throttle and boost, and the flip request toward
      the end of the segment (with `Some` meaning requested). */
  method Drive(output: Controls, car: CarView, correction: Correction, segment: Segment,
               accel: AccelTimes, lead: Lead)
    returns (flipTarget: Option<Vector3>)
    requires Drivable(car, correction, lead)
    modifies output
    ensures output.steer == SteerCommand(segment.segmentType, correction.sinCorrection,
      correction.targetDistance, car.groundSpeed, car.angularVelocityZ, lead)
    ensures output.slide == SlideAsWritten(CorrectionCurvature(correction.sinCorrection, correction.targetDistance),
      Constants.Curvature(car.groundSpeed), car.groundSpeed)
    ensures var c := ThrottleRule(correction.targetDistance / car.speed, accel, car.isSupersonic, lead);
      output.throttle == c.throttle && output.boost == (if c.boost.Some? then c.boost.value else old(output.boost))
    ensures flipTarget.Some? <==> FlipRule(segment, car.groundSpeed, output.steer, car.noseVelocityAngle)
    ensures flipTarget.Some? ==> flipTarget.value == segment.end
    ensures output.jump == old(output.jump) && output.aim == old(output.aim)
  {
    var correctionCurvature := CorrectionCurvature(correction.sinCorrection, correction.targetDistance);
    var maxCurvature := Constants.Curvature(car.groundSpeed);
    output.steer := SteerCommand(segment.segmentType, correction.sinCorrection,
      correction.targetDistance, car.groundSpeed, car.angularVelocityZ, lead);
    output.slide := SlideAsWritten(correctionCurvature, maxCurvature, car.groundSpeed);

    var timeToTarget := correction.targetDistance / car.speed;
    var command := ThrottleRule(timeToTarget, accel, car.isSupersonic, lead);
    output.throttle := command.throttle;
    if command.boost.Some? {
      output.boost := command.boost.value;
    }

    if FlipRule(segment, car.groundSpeed, output.steer, car.noseVelocityAngle) {
      flipTarget := Some(segment.end);
    } else {
      flipTarget := None;
    }
  }

  /** The state of the path the tick reads: its scheduled end, the root of
      the current segment and the path's extension segment, if it has one. */
  datatype PathView = PathView(endTime: real, segment: Segment, extension: Option<Segment>)

  /** One tick along a path: off-course marking, driving toward the lead
      target, and on a jump segment a jump with the nose pointed along the
      path's extension, or along the velocity when the path has none. */
  method ExecutePath(output: Controls, car: CarView, path: PathView, correction: Correction,
                     accel: AccelTimes, lead: Lead)
    returns (markedOffCourse: bool, flipTarget: Option<Vector3>)
    requires Drivable(car, correction, lead)
    modifies output
    ensures markedOffCourse == OffCourse(path.endTime, car.elapsedSeconds, correction.targetDistance, lead)
    ensures output.steer == SteerCommand(path.segment.segmentType, correction.sinCorrection,
      correction.targetDistance, car.groundSpeed, car.angularVelocityZ, lead)
    ensures output.slide == SlideAsWritten(CorrectionCurvature(correction.sinCorrection, correction.targetDistance),
      Constants.Curvature(car.groundSpeed), car.groundSpeed)
    ensures var c := ThrottleRule(correction.targetDistance / car.speed, accel, car.isSupersonic, lead);
      output.throttle == c.throttle && output.boost == (if c.boost.Some? then c.boost.value else old(output.boost))
    ensures flipTarget.Some? <==> FlipRule(path.segment, car.groundSpeed, output.steer, car.noseVelocityAngle)
    ensures flipTarget.Some? ==> flipTarget.value == path.segment.end
    ensures output.jump == (path.segment.segmentType == Jump || old(output.jump))
    ensures path.segment.segmentType == Jump ==>
      output.aim == PointAlong(if path.extension.Some? then Minus(path.extension.value.end, path.extension.value.start) else car.velocity)
    ensures path.segment.segmentType != Jump ==> output.aim == old(output.aim)
  {
    markedOffCourse := false;
    if path.endTime < car.elapsedSeconds {
      markedOffCourse := true;
    }
    if correction.targetDistance > Constants.BoostedMaxSpeed * 2.0 * lead.leadTime {
      markedOffCourse := true;
    }

    flipTarget := Drive(output, car, correction, path.segment, accel, lead);

    if path.segment.segmentType == Jump {
      output.jump := true;
      var noseVector: Vector3;
      if path.extension.Some? {
        noseVector := Minus(path.extension.value.end, path.extension.value.start);
      } else {
        noseVector := car.velocity;
      }
      output.aim := PointAlong(noseVector);
    }
  }

  // ---------------------------------------------------------------------
  // Bare-target execution

  /** Grounded throttle toward a bare target: full when the tactic's moment
      comes sooner than the car can arrive, brake when the car would arrive
      more than 10% early, coast otherwise. */
  function SimpleThrottle(timeToTactic: real, timeToTarget: real): real
  {
    if timeToTactic < timeToTarget then 1.0
    else if timeToTarget * 1.1 < timeToTactic then -1.0
    else 0.0
  }

  /** Grounded boost: lined up, more than 12 boost, not supersonic, more
      than 1000 away and behind schedule. */
  predicate SimpleBoost(correctionAngle: real, car: CarView, distanceToTarget: real, timeToTactic: real, timeToTarget: real)
  {
    Abs(correctionAngle) < 0.5 && car.boost > 12 && !car.isSupersonic
      && distanceToTarget > 1000.0 && timeToTactic < timeToTarget
  }

  /** Grounded handbrake: a sharp angle, a low yaw rate and some speed. */
  predicate SimpleSlide(correctionAngle: real, car: CarView)
  {
    Abs(correctionAngle) > 1.0 && car.angularVelocityZ < 3.0 && car.groundSpeed > 1000.0
  }

  /** For a non-negative arrival time the throttle is exactly one of full,
      brake or coast by the schedule, and the grounded boost only ever comes
      with full throttle. */
  lemma SimpleThrottleSchedule(timeToTactic: real, timeToTarget: real, correctionAngle: real,
                               car: CarView, distanceToTarget: real)
    requires timeToTarget >= 0.0
    ensures SimpleThrottle(timeToTactic, timeToTarget) == 1.0 <==> timeToTactic < timeToTarget
    ensures SimpleThrottle(timeToTactic, timeToTarget) == -1.0 <==> timeToTactic > 1.1 * timeToTarget
    ensures SimpleThrottle(timeToTactic, timeToTarget) == 0.0 <==>
      timeToTarget <= timeToTactic <= 1.1 * timeToTarget
    ensures SimpleBoost(correctionAngle, car, distanceToTarget, timeToTactic, timeToTarget) ==>
      SimpleThrottle(timeToTactic, timeToTarget) == 1.0
  {
  }

  /** What a grounded tick needs: a moving car, so that the time to the
      target is finite. */
  predicate SimpleDrivable(car: CarView)
  {
    car.hasWheelContact ==> car.groundSpeed > 0.0
  }

  /** One tick toward a bare target. In the air: full throttle, and point at
      the ball while rising or level out for landing while falling. On the
      ground: steer at twice the correction angle and apply the schedule,
      boost and handbrake rules; `distance` is the car's distance to the
      tactic's position and `frontToRj` the bounding-box offset subtracted
      from it. */
  method ExecuteSimplePath(output: Controls, car: CarView, ballPosition: Vector3, correctionAngle: real,
                           distance: real, frontToRj: real, subjectTime: real)
    requires SimpleDrivable(car)
    modifies output
    ensures !car.hasWheelContact ==>
      && output.throttle == 1.0
      && output.aim == (if car.velocity.z > 0.0 then PointAlong(Minus(ballPosition, car.position)) else FlatLanding)
      && output.steer == old(output.steer) && output.boost == old(output.boost)
      && output.slide == old(output.slide)
    ensures car.hasWheelContact ==>
      var distanceToTarget := distance - frontToRj;
      var timeToTactic := subjectTime - car.elapsedSeconds;
      var timeToTarget := distanceToTarget / car.groundSpeed;
      && output.throttle == SimpleThrottle(timeToTactic, timeToTarget)
      && output.steer == correctionAngle * 2.0
      && output.boost == SimpleBoost(correctionAngle, car, distanceToTarget, timeToTactic, timeToTarget)
      && output.slide == SimpleSlide(correctionAngle, car)
      && output.aim == old(output.aim)
    ensures output.jump == old(output.jump)
  {
    if !car.hasWheelContact {
      if car.velocity.z > 0.0 {
        output.aim := PointAlong(Minus(ballPosition, car.position));
      } else {
        output.aim := FlatLanding;
      }
      output.throttle := 1.0;
    } else {
      var distanceToTarget := distance - frontToRj;
      var timeToTactic := subjectTime - car.elapsedSeconds;
      var timeToTarget := distanceToTarget / car.groundSpeed;
      output.throttle := SimpleThrottle(timeToTactic, timeToTarget);
      output.steer := correctionAngle * 2.0;
      output.boost := SimpleBoost(correctionAngle, car, distanceToTarget, timeToTactic, timeToTarget);
      output.slide := SimpleSlide(correctionAngle, car);
    }
  }
}
