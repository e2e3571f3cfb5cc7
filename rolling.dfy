/** The rolling strategy: drive at full throttle toward the target, turning
    up the side wall when the target is high above a car near that wall,
    boosting while lined up with both the target and the opponents' goal,
    and giving the tactic up once the ball is no longer predicted near it. */
module Rolling {
  import opened Common
  import opened BallPrediction
  import Constants

  /** The part of the car's state the strategy reads. */
  datatype CarState = CarState(position: Vector3, velocity: Vector3, hasWheelContact: bool, boost: int)

  /** The controls the strategy sets. */
  datatype RollingControls = RollingControls(steer: real, throttle: real, slide: bool, boost: bool)

  /** The car is on the ground near a side wall and the target is far above
      or below it: it should drive up the wall. */
  predicate NeedsWallRide(car: CarState, target: Vector3)
  {
    var carToTarget := Minus(target, car.position);
    && car.hasWheelContact
    && Abs(carToTarget.z) > 500.0
    && Abs(car.position.x) > 3000.0
    && car.position.z < 20.0
  }

  /** The point on the ground that the car steers at to reach a target on a
      side wall: the target's height is unfolded sideways, away from the
      middle of the field, and the point is shifted along the field by half
      its length, less the target's distance from the middle when the car
      drives toward positive y and plus that distance otherwise. */
  function WallProjection(target: Vector3, carVelocityY: real): Vector2
  {
    var xVector := if target.x > 0.0 then target.z else target.z * -1.0;
    var yVector := Constants.HalfLength - Abs(target.x) * (if carVelocityY > 0.0 then 1.0 else -1.0);
    Plus2(Flatten(target), Vector2(xVector, yVector))
  }

  /** For a target on or above the ground, the projection keeps the target's
      side of the field and moves it out by exactly the target's height. */
  lemma WallProjectionUnfoldsHeight(target: Vector3, carVelocityY: real)
    requires target.z >= 0.0
    ensures var p := WallProjection(target, carVelocityY);
      && (target.x > 0.0 ==> p.x > 0.0)
      && (target.x < 0.0 ==> p.x < 0.0)
      && Abs(p.x) == Abs(target.x) + target.z
  {
  }

  /** Along the field, the projection lies 2|x| further toward positive y
      when the car drives toward negative y than when it drives toward
      positive y, and half a field length ahead of the target when the
      target is in the middle. */
  lemma WallProjectionAlongField(target: Vector3, up: real, down: real)
    requires up > 0.0 && down <= 0.0
    ensures WallProjection(target, down).y == WallProjection(target, up).y + 2.0 * Abs(target.x)
    ensures WallProjection(target, down).x == WallProjection(target, up).x
    ensures target.x == 0.0 ==> WallProjection(target, up).y == target.y + Constants.HalfLength
  {
  }

  /** The boosting flag after one tick, from the flag before, the boost in
      the tank, the steering angle to the target and the angle to the goal. */
  function NextBoosting(boosting: bool, boost: int, correctionAngle: real, goalCorrectionAngle: real): bool
  {
    if (boost > 12 || boosting) && Abs(correctionAngle) < 0.2 then goalCorrectionAngle < 0.2
    else false
  }

  /** The inputs of one tick of the boosting rule. */
  datatype BoostTick = BoostTick(boost: int, correctionAngle: real, goalCorrectionAngle: real)

  /** Lined up with the target and the goal (the goal angle is compared as
      signed, without an absolute value). */
  predicate Aligned(t: BoostTick)
  {
    Abs(t.correctionAngle) < 0.2 && t.goalCorrectionAngle < 0.2
  }

  /** The flag after a sequence of ticks. */
  function RunBoosting(boosting: bool, ticks: seq<BoostTick>): bool
  {
    if |ticks| == 0 then boosting
    else
      var last := ticks[|ticks| - 1];
      NextBoosting(RunBoosting(boosting, ticks[..|ticks| - 1]), last.boost, last.correctionAngle, last.goalCorrectionAngle)
  }

  /** The flag is set after a tick exactly when the car is lined up and
      either had more than 12 boost or was already boosting; in particular a
      streak never starts with 12 boost or less. */
  lemma NextBoostingCases(boosting: bool, boost: int, correctionAngle: real, goalCorrectionAngle: real)
    ensures NextBoosting(boosting, boost, correctionAngle, goalCorrectionAngle) <==>
      Aligned(BoostTick(boost, correctionAngle, goalCorrectionAngle)) && (boost > 12 || boosting)
    ensures !boosting && boost <= 12 ==> !NextBoosting(boosting, boost, correctionAngle, goalCorrectionAngle)
  {
  }

  /** A car that was not boosting is boosting after a run of ticks only if
      some tick of the run had more than 12 boost and it has been lined up
      on every tick since. */
  lemma {:induction false} StreakStartsWithBoost(ticks: seq<BoostTick>)
    requires RunBoosting(false, ticks)
    ensures exists i :: 0 <= i < |ticks| && ticks[i].boost > 12 &&
                        forall j :: i <= j < |ticks| ==> Aligned(ticks[j])
  {
    var n := |ticks|;
    var last := ticks[n - 1];
    var prefix := ticks[..n - 1];
    if last.boost > 12 {
      assert ticks[n - 1].boost > 12 && forall j :: n - 1 <= j < n ==> Aligned(ticks[j]);
    } else {
      StreakStartsWithBoost(prefix);
      var i :| 0 <= i < |prefix| && prefix[i].boost > 12 && forall j :: i <= j < |prefix| ==> Aligned(prefix[j]);
      assert ticks[i].boost > 12 && forall j :: i <= j < n ==> Aligned(ticks[j]);
    }
  }

  /** Whether the tactic is to be given up: there is a prediction and none
      of its slices is within 50 of the target. */
  predicate Complete(target: Vector3, prediction: Option<seq<Slice>>, distance: (Vector3, Vector3) -> real)
  {
    prediction.Some? && forall s :: s in prediction.value ==> distance(target, s.location) >= 50.0
  }

  /** Scans the predicted slices and stops at the first one within 50 of the
      target; reports completion when the scan finds none. */
  method CheckComplete(target: Vector3, prediction: Option<seq<Slice>>, distance: (Vector3, Vector3) -> real)
    returns (complete: bool)
    ensures complete <==> Complete(target, prediction, distance)
  {
    if prediction.Some? {
      var slices := prediction.value;
      var i := 0;
      while i < |slices|
        invariant 0 <= i <= |slices|
        invariant forall j :: 0 <= j < i ==> distance(target, slices[j].location) >= 50.0
      {
        if distance(target, slices[i].location) < 50.0 {
          return false;
        }
        i := i + 1;
      }
      return true;
    }
    return false;
  }

  class RollingTactician {
    /** Whether the car boosted on the last tick. */
    var amBoosting: bool

    constructor()
      ensures !amBoosting
    {
      amBoosting := false;
    }

    /** Boosts and keeps the flag set while lined up, starting only with more
        than 12 boost; `goalCorrectionAngle` is only looked at once the other
        conditions hold. The rule only ever turns boost on: `boostIn` is the
        boost already set in the controls, and it is kept. */
    method BoostToShoot(boostIn: bool, boost: int, correctionAngle: real, goalCorrectionAngle: real)
      returns (boostOut: bool)
      modifies this
      ensures amBoosting == NextBoosting(old(amBoosting), boost, correctionAngle, goalCorrectionAngle)
      ensures boostOut == (boostIn || amBoosting)
    {
      boostOut := boostIn;
      if (boost > 12 || amBoosting) && Abs(correctionAngle) < 0.2 {
        if goalCorrectionAngle < 0.2 {
          boostOut := true;
          amBoosting := true;
        } else {
          amBoosting := false;
        }
      } else {
        amBoosting := false;
      }
    }

    /** One tick toward `target`. `flatAngle` is the flat correction angle to
        the target and `angleTo` gives the correction angle to a point on the
        ground; `boostIn` is the boost already set in the controls; `answer`
        is what the native interface gives for the ball prediction, filtered
        by `GetBallPrediction`; `completed` records that the tactic was marked
        complete. */
    method Execute(car: CarState, target: Vector3, flatAngle: real, angleTo: Vector2 -> real,
                   goalCorrectionAngle: real, boostIn: bool, answer: NativeAnswer,
                   distance: (Vector3, Vector3) -> real)
      returns (controls: RollingControls, completed: bool)
      requires WellFormed(answer)
      modifies this
      ensures controls.steer ==
        (if NeedsWallRide(car, target) then angleTo(WallProjection(target, car.velocity.y)) else flatAngle)
      ensures controls.throttle == 1.0
      ensures controls.slide <==> Abs(controls.steer) > 1.2
      ensures amBoosting == NextBoosting(old(amBoosting), car.boost, controls.steer, goalCorrectionAngle)
      ensures controls.boost == (boostIn || amBoosting)
      ensures completed <==> Complete(target, GetBallPrediction(answer), distance)
    {
      var correctionAngle: real;
      if NeedsWallRide(car, target) {
        correctionAngle := angleTo(WallProjection(target, car.velocity.y));
      } else {
        correctionAngle := flatAngle;
      }
      var boostOut := BoostToShoot(boostIn, car.boost, correctionAngle, goalCorrectionAngle);
      controls := RollingControls(correctionAngle, 1.0, Abs(correctionAngle) > 1.2, boostOut);
      completed := CheckComplete(target, GetBallPrediction(answer), distance);
    }
  }
}
