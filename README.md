# Control core of the ACG Rocket League bot, in Dafny

This project models the decision and bookkeeping layer of the bot and proves
properties of it. It covers seven parts:

- **Tactic queue** (`tactics.dfy`, module `Tactics`). A class that holds a
  first-in first-out list of tactics. A permanent default tactic (dribble
  toward the opponents' goal) is active whenever the list is empty. Each tick
  pops a finished head, hands the active tactic to the strategy registered for
  its kind, and then drops the head once more. A pure function `ExecuteStep`
  specifies one tick, and the `Execute` method is proved against it.
- **Kinematic tables** (`constants.dfy`, module `Constants`). Turning
  curvature and throttle acceleration as piecewise-linear functions of speed,
  and the turning radius, turn depth, turn width and arc length built on them.
- **Per-tick path following** (`pathexecutor.dfy`, module `Paths`).
  Off-course marking, the steering controller, the handbrake, the throttle and
  boost schedule, the flip request, the jump segment, and the simpler rules
  used when only a bare target is known. The controls are a class whose fields
  the methods set.
- **Rolling strategy** (`rolling.dfy`, module `Rolling`). The one-bit
  boosting state of the strategy, the wall-ride test, the wall projection and
  the completion check over the ball prediction.
- **3x3 matrices** (`matrix3.dfy`, module `Matrices`). Rows, columns,
  transpose, determinant, minors, the cofactor inverse, both products, trace
  and the identity. The inverse is proved to be a two-sided inverse.
- **Ball prediction** (`dllhelper.dfy`, module `BallPrediction`). The filter
  applied to the native prediction, and the linear search for the predicted
  ball at a game time.
- **Rectangle area** (`rectangle.dfy`, module `Rectangles`). The product of
  the two smallest of the three corner distances.

`common.dfy` holds the shared value types: `Option`, `Result`, the Java
exceptions the core throws, and vectors.

All arithmetic is over `real`. The Java code computes in `float` and `double`.

## Model

| member | source | states |
|---|---|---|
| `Tactics.LookupTactician` | src/main/java/com/eru/rlbot/bot/ballchaser/v1/tactics/TacticManager.java:40-46 | Each of the seven registered kinds gets its strategy from the map. Any other kind gets none, which is the Java null. |
| `Tactics.Active` | src/main/java/com/eru/rlbot/bot/ballchaser/v1/tactics/TacticManager.java:58-60 | The active tactic is the head of a non-empty queue, or the default for an empty one. It is never absent. |
| `Tactics.ExecuteStep` | src/main/java/com/eru/rlbot/bot/ballchaser/v1/tactics/TacticManager.java:71-87 | One tick never lengthens the queue, and a dispatched strategy is the one registered for the kind of the tactic it is given. The exact queue and outcome per case are stated by `ExecuteStepQueue`. |
| `Tactics.ExecuteStepQueue` | src/main/java/com/eru/rlbot/bot/ballchaser/v1/tactics/TacticManager.java:71-87 | A tick fails with NoSuchElement exactly when a done tactic is popped off an empty queue, and the queue is then unchanged. It fails with a null strategy exactly when the active tactic after the pop has an unregistered kind, and the queue is then popped. Otherwise it drops the first min(n, 1 + [done]) entries. |
| `Tactics.ExecuteStepLeavesSuffix` | src/main/java/com/eru/rlbot/bot/ballchaser/v1/tactics/TacticManager.java:71-87 | In every case the queue left behind is a suffix of the original queue. |
| `Tactics.ExecuteStepDispatch` | src/main/java/com/eru/rlbot/bot/ballchaser/v1/tactics/TacticManager.java:72-76 | The strategy invoked is the one registered for the active tactic after the completion pop. It receives that tactic. Dispatch happens exactly when that kind is registered. |
| `Tactics.DefaultIsRegistered` | src/main/java/com/eru/rlbot/bot/ballchaser/v1/tactics/TacticManager.java:37-44 | The default kind, dribble, is registered. A tick on an empty queue that is not done invokes the dribble strategy on the default and leaves the queue empty. |
| `Tactics.TacticManager.constructor` | src/main/java/com/eru/rlbot/bot/ballchaser/v1/tactics/TacticManager.java:32-47 | A new manager starts with an empty queue and no end goal. Its default dribbles toward the centre of the opponents' goal, and its defend tactic targets the own goal. |
| `Tactics.TacticManager.GetTactic` | src/main/java/com/eru/rlbot/bot/ballchaser/v1/tactics/TacticManager.java:117-119 | The active tactic is the head of the queue, or the default when the queue is empty. |
| `Tactics.TacticManager.GetNextTarget` | src/main/java/com/eru/rlbot/bot/ballchaser/v1/tactics/TacticManager.java:54-56 | The next target is the target of the head of the queue, or of the default when the queue is empty. |
| `Tactics.TacticManager.GetTactician` | src/main/java/com/eru/rlbot/bot/ballchaser/v1/tactics/TacticManager.java:121-123 | A strategy exists exactly when the active tactic's kind is registered, and it is that kind's map entry. On an empty queue it is the dribble strategy. |
| `Tactics.TacticManager.AddTactic` | src/main/java/com/eru/rlbot/bot/ballchaser/v1/tactics/TacticManager.java:62-64 | The tactic is appended. Existing entries keep their order and values, and the active tactic of a non-empty queue does not change. |
| `Tactics.TacticManager.SetTactic` | src/main/java/com/eru/rlbot/bot/ballchaser/v1/tactics/TacticManager.java:66-69 | The queue becomes exactly the one tactic, which is then active. |
| `Tactics.TacticManager.ClearTactics` | src/main/java/com/eru/rlbot/bot/ballchaser/v1/tactics/TacticManager.java:137-139 | The queue becomes empty, and the default dribble tactic becomes active. |
| `Tactics.TacticManager.SetEndGoal` | src/main/java/com/eru/rlbot/bot/ballchaser/v1/tactics/TacticManager.java:141-143 | The end goal is set and the queue is untouched. |
| `Tactics.TacticManager.Execute` | src/main/java/com/eru/rlbot/bot/ballchaser/v1/tactics/TacticManager.java:71-87 | The new queue and the outcome are those of `ExecuteStep` on the old queue, and the end goal is unchanged. |
| `Constants.Curvature` | src/main/java/com/eru/rlbot/bot/common/Constants.java:82-96 | On [0, 2500) the curvature is the line of the piece that holds the speed, and it lies in (0, 0.0069]. Elsewhere it is 0. |
| `Constants.CurvaturePiecesMeet` | src/main/java/com/eru/rlbot/bot/common/Constants.java:83-92 | Adjacent pieces agree exactly at 500, 1000, 1500 and 1750. |
| `Constants.CurvatureDropsAtLimit` | src/main/java/com/eru/rlbot/bot/common/Constants.java:91-95 | At 2500 the last piece would give 0.0008, but the table gives 0. |
| `Constants.CurvatureContinuousDecreasing` | src/main/java/com/eru/rlbot/bot/common/Constants.java:82-96 | On [0, 2500) curvature strictly decreases with speed. It changes by at most 0.00000584 per unit of speed. |
| `Constants.CurvatureNonIncreasing` | src/main/java/com/eru/rlbot/bot/common/Constants.java:82-96 | Curvature never increases with speed for speeds >= 0. |
| `Constants.Radius` | src/main/java/com/eru/rlbot/bot/common/Constants.java:66-68 | The radius is 0 at rest, with no division. It is infinite exactly for v < 0 or v >= 2500. Otherwise it is positive and its product with the curvature is 1. |
| `Constants.RadiusNonDecreasing` | src/main/java/com/eru/rlbot/bot/common/Constants.java:66-68 | On (0, 2500) the radius never shrinks as speed grows. |
| `Constants.TurnDepth` | src/main/java/com/eru/rlbot/bot/common/Constants.java:54-56 | The depth is the radius times the sine. It is finite exactly when the radius is, and it is 0 at rest. |
| `Constants.TurnWidth` | src/main/java/com/eru/rlbot/bot/common/Constants.java:58-60 | The width is the radius times the cosine. It is finite exactly when the radius is, and it is 0 at rest. |
| `Constants.TurnOnCircle` | src/main/java/com/eru/rlbot/bot/common/Constants.java:54-60 | For a genuine angle, depth squared plus width squared equals radius squared. |
| `Constants.ArcLength` | src/main/java/com/eru/rlbot/bot/common/Constants.java:62-64 | The arc length is never negative. It equals the radius times the absolute angle, and it is 0 at rest. |
| `Constants.AccelerationAsWritten` | src/main/java/com/eru/rlbot/bot/common/Constants.java:70-80 | The acceleration is 1600 - v below 1400, (v - 1400) * 20 on [1400, 1410) and 0 on [1410, 2300). It throws IllegalArgument exactly from 2300 on, and it is never negative. |
| `Constants.AccelerationAsWrittenJumps` | src/main/java/com/eru/rlbot/bot/common/Constants.java:71-75 | As written, the acceleration is 200.5 at 1399.5, drops to 0 at 1400, then rises to 100 at 1405. |
| `Constants.Acceleration` | src/main/java/com/eru/rlbot/bot/common/Constants.java:70-80 | The corrected table has the same domain error and is non-negative. It agrees with the written table outside [1400, 1410). |
| `Constants.AccelerationContinuousNonIncreasing` | src/main/java/com/eru/rlbot/bot/common/Constants.java:70-80 | The corrected acceleration never increases with speed. It changes by at most 20 per unit of speed below 2300. |
| `Constants.AccelerationSamples` | src/main/java/com/eru/rlbot/bot/common/Constants.java:71-77 | Both tables give 400 at 1200 and 100 at 1405. |
| `Paths.OffCourse` | src/main/java/com/eru/rlbot/bot/path/PathExecutor.java:35-45 | Defined as: the end time has passed, or the target is more than 2300 * 2 lead times away. `Paths.ExecutePath` marks the path exactly when it holds. |
| `Paths.OffCourseMonotone` | src/main/java/com/eru/rlbot/bot/path/PathExecutor.java:35-45 | Being off course is never undone by a later clock, an earlier end time or a farther target. A path on schedule whose target is reached is on course for any non-negative lead time. |
| `Paths.SegmentModifier` | src/main/java/com/eru/rlbot/bot/path/PathExecutor.java:84 | The steering gain is positive. It is the gentle 0.5 exactly on straight segments. |
| `Paths.CorrectionCurvature` | src/main/java/com/eru/rlbot/bot/path/PathExecutor.java:75 | `1 / (distance / (2 sin))` is the curvature k with k * distance = 2 sin, including a zero sine. |
| `Paths.SteerAtMatchedRate` | src/main/java/com/eru/rlbot/bot/path/PathExecutor.java:76-89 | When the car already turns at the needed rate, the command is the gain times the needed curvature over the largest curvature at that speed. |
| `Paths.SteerTowardTarget` | src/main/java/com/eru/rlbot/bot/path/PathExecutor.java:74-89 | The steering command has the sign of the correction angle's sine whenever the car is not already turning that way. |
| `Paths.SteerCommand` | src/main/java/com/eru/rlbot/bot/path/PathExecutor.java:74-89 | The segment gain times the proportional and derivative terms. `SteerAtMatchedRate` and `SteerTowardTarget` state its properties. |
| `Paths.SlideAsWrittenIgnoresNegativeTurns` | src/main/java/com/eru/rlbot/bot/path/PathExecutor.java:90 | As written, a turn with a non-positive sine never triggers the handbrake. At 1200 a target 100 away at sine 1 slides, and its mirror image does not. |
| `Paths.SlideMirrorSymmetric` | src/main/java/com/eru/rlbot/bot/path/PathExecutor.java:90 | The corrected handbrake gives a target and its mirror image the same answer. It agrees with the written rule for a non-negative sine. |
| `Paths.SlideAsWritten` | src/main/java/com/eru/rlbot/bot/path/PathExecutor.java:90 | The handbrake as written, on the signed curvature. `SlideAsWrittenIgnoresNegativeTurns` states that negative turns never slide, and `Drive` uses it. |
| `Paths.Slide` | src/main/java/com/eru/rlbot/bot/path/PathExecutor.java:90 | The handbrake on the absolute curvature. `SlideMirrorSymmetric` states that it treats mirror-image targets alike and agrees with the written rule on positive turns. |
| `Paths.ThrottleSchedule` | src/main/java/com/eru/rlbot/bot/path/PathExecutor.java:92-113 | The car brakes within 0.4 lead times and coasts up to one lead time. Beyond that it gives full throttle with boost = supersonic when even boosting is slower than a lead time. Otherwise throttle times lead time equals 10 times the time saved, which is positive exactly when unboosted acceleration is quicker. Boost is set only in the first case. |
| `Paths.ThrottleRule` | src/main/java/com/eru/rlbot/bot/path/PathExecutor.java:92-113 | The throttle and optional boost by time to target. `ThrottleSchedule` states the schedule. |
| `Paths.FlipNeedsRoom` | src/main/java/com/eru/rlbot/bot/path/PathExecutor.java:116-121 | There is room for a flip exactly when the segment is longer than ground speed + 400. A flip needs more than 1100 speed, a straight segment, and more than 1500 of road. |
| `Paths.FlipRule` | src/main/java/com/eru/rlbot/bot/path/PathExecutor.java:116-121 | The flip request condition. `FlipNeedsRoom` states what it requires. |
| `Paths.Drive` | src/main/java/com/eru/rlbot/bot/path/PathExecutor.java:72-130 | The controls become the steering command, the handbrake rule as written (signed curvature, `SlideAsWritten`), and the throttle rule at time distance / speed. Boost changes only when the rule sets it. A flip toward the segment's end is requested exactly when the flip rule holds. Jump and aim are untouched. |
| `Paths.ExecutePath` | src/main/java/com/eru/rlbot/bot/path/PathExecutor.java:33-67 | The path is marked off course exactly when `OffCourse` holds. Steering, the handbrake as written, throttle, boost and the flip request toward the end of the current segment are those of `Drive`. On a jump segment the car jumps and points along the path's extension, or along its velocity when the path has none. Off a jump segment the aim is unchanged. |
| `Paths.SimpleThrottleSchedule` | src/main/java/com/eru/rlbot/bot/path/PathExecutor.java:150-152 | For a non-negative arrival time, the throttle is full exactly when behind schedule, brake exactly when more than 10% early, and coast otherwise. The grounded boost only comes with full throttle. |
| `Paths.SimpleThrottle` | src/main/java/com/eru/rlbot/bot/path/PathExecutor.java:150 | Full, brake or coast by arrival time. `SimpleThrottleSchedule` states the three cases. |
| `Paths.SimpleBoost` | src/main/java/com/eru/rlbot/bot/path/PathExecutor.java:152 | The grounded boost condition. `SimpleThrottleSchedule` states that it only comes with full throttle. |
| `Paths.SimpleSlide` | src/main/java/com/eru/rlbot/bot/path/PathExecutor.java:153 | The grounded handbrake on the absolute correction angle. `ExecuteSimplePath` sets the handbrake exactly when it holds. |
| `Paths.ExecuteSimplePath` | src/main/java/com/eru/rlbot/bot/path/PathExecutor.java:132-155 | In the air the throttle is full, the car aims at the ball while rising and levels out while falling, and the other controls are kept. On the ground the steer is twice the angle, and throttle, boost and handbrake follow the schedule rules. |
| `Rolling.WallProjectionUnfoldsHeight` | src/main/java/com/eru/rlbot/bot/ballchaser/v1/tactics/RollingTactician.java:86-91 | For a target at or above the ground, the projected point keeps the target's side of the field. It moves outward by exactly the target's height. |
| `Rolling.WallProjectionAlongField` | src/main/java/com/eru/rlbot/bot/ballchaser/v1/tactics/RollingTactician.java:88-91 | Driving toward negative y puts the projected point 2 abs(x) further up the field than driving toward positive y. A target in the middle is shifted by half the field length. |
| `Rolling.NeedsWallRide` | src/main/java/com/eru/rlbot/bot/ballchaser/v1/tactics/RollingTactician.java:36-39 | The wall-ride test: wheels down, target more than 500 above or below, car more than 3000 from the middle and below height 20. `RollingTactician.Execute` steers at the wall projection exactly when it holds. |
| `Rolling.WallProjection` | src/main/java/com/eru/rlbot/bot/ballchaser/v1/tactics/RollingTactician.java:81-91 | The target on the ground plus the unfolded height sideways and the shift along the field. `WallProjectionUnfoldsHeight` and `WallProjectionAlongField` state its properties. |
| `Rolling.NextBoosting` | src/main/java/com/eru/rlbot/bot/ballchaser/v1/tactics/RollingTactician.java:102-117 | The boosting flag after one tick. `NextBoostingCases` and `StreakStartsWithBoost` state its properties. |
| `Rolling.Complete` | src/main/java/com/eru/rlbot/bot/ballchaser/v1/tactics/RollingTactician.java:60-74 | A prediction exists and none of its slices is within 50 of the target. `CheckComplete` is proved to decide exactly this. |
| `Rolling.NextBoostingCases` | src/main/java/com/eru/rlbot/bot/ballchaser/v1/tactics/RollingTactician.java:102-117 | The flag is set exactly when the car is lined up (abs(angle) < 0.2 and a signed goal angle < 0.2) and either has more than 12 boost or was already boosting. A streak never starts with 12 boost or less. |
| `Rolling.StreakStartsWithBoost` | src/main/java/com/eru/rlbot/bot/ballchaser/v1/tactics/RollingTactician.java:102-117 | Suppose a car that was not boosting is boosting after a run of ticks. Then some tick of the run had more than 12 boost, and the car has been lined up on every tick since. |
| `Rolling.CheckComplete` | src/main/java/com/eru/rlbot/bot/ballchaser/v1/tactics/RollingTactician.java:60-74 | The tactic is marked complete exactly when a prediction exists and none of its slices is within 50 of the target. |
| `Rolling.RollingTactician.constructor` | src/main/java/com/eru/rlbot/bot/ballchaser/v1/tactics/RollingTactician.java:18-22 | A new strategy is not boosting. |
| `Rolling.RollingTactician.BoostToShoot` | src/main/java/com/eru/rlbot/bot/ballchaser/v1/tactics/RollingTactician.java:102-117 | The new flag is `NextBoosting` of the old flag and the tick's inputs. The rule only turns boost on: the output boosts exactly when boost was already set or the new flag is set. |
| `Rolling.RollingTactician.Execute` | src/main/java/com/eru/rlbot/bot/ballchaser/v1/tactics/RollingTactician.java:24-58 | The steer is the angle to the wall projection when the wall-ride test holds, and the flat correction angle otherwise. The throttle is 1, and the handbrake is on exactly when abs(steer) > 1.2. Boost is kept when already set and otherwise follows the new boosting flag, as in `BoostToShoot`. The tactic is marked complete exactly when `Complete` holds of the filtered native prediction (`GetBallPrediction`). |
| `Matrices.Row` | src/main/java/com/eru/rlbot/bot/common/Matrix3.java:30-41 | A row exists exactly for indices 0..2. Any other index throws IllegalState. |
| `Matrices.Column` | src/main/java/com/eru/rlbot/bot/common/Matrix3.java:44-46 | A column exists exactly for indices 0..2. |
| `Matrices.ColumnEntries` | src/main/java/com/eru/rlbot/bot/common/Matrix3.java:44-46 | Component k of column i is the entry in row k, column i. |
| `Matrices.TransposeEntries` | src/main/java/com/eru/rlbot/bot/common/Matrix3.java:49-54 | Entry (i, j) of the transpose is entry (j, i). |
| `Matrices.Transpose` | src/main/java/com/eru/rlbot/bot/common/Matrix3.java:49-54 | Rows become columns. Its properties are stated by `TransposeEntries` and `TransposeInvolution`. |
| `Matrices.TransposeInvolution` | src/main/java/com/eru/rlbot/bot/common/Matrix3.java:49-54 | Transposing twice gives the matrix back, and transposing keeps the trace. |
| `Matrices.MinorDeterminant` | src/main/java/com/eru/rlbot/bot/common/Matrix3.java:83-94 | A minor exists exactly for indices 0..2. Any other index throws IllegalArgument. |
| `Matrices.Determinant` | src/main/java/com/eru/rlbot/bot/common/Matrix3.java:97-103 | The first-row expansion, term for term as in the code. Its properties are stated by `DeterminantExpansion`, `DeterminantOfTranspose` and `Inverse`. |
| `Matrices.DeterminantExpansion` | src/main/java/com/eru/rlbot/bot/common/Matrix3.java:97-103 | The determinant is the first-row cofactor expansion over the three minors. |
| `Matrices.DeterminantOfTranspose` | src/main/java/com/eru/rlbot/bot/common/Matrix3.java:97-103 | A matrix and its transpose have the same determinant. |
| `Matrices.Inverse` | src/main/java/com/eru/rlbot/bot/common/Matrix3.java:57-81 | The inverse throws IllegalArgument exactly when the determinant is 0. Otherwise it is a two-sided inverse: both products with the matrix are the identity. |
| `Matrices.InverseProducts` | src/main/java/com/eru/rlbot/bot/common/Matrix3.java:64-80 | With k the reciprocal of the determinant, the signed, scaled minors of the transpose form a two-sided inverse. |
| `Matrices.ScaledCofactors` | src/main/java/com/eru/rlbot/bot/common/Matrix3.java:68-80 | The signed minors of the transpose times k, entry by entry as in the code. `CofactorRows` and `CofactorColumns` state them as scaled cross products. |
| `Matrices.CofactorRows` | src/main/java/com/eru/rlbot/bot/common/Matrix3.java:68-80 | The rows of the scaled cofactor matrix are cross products of the columns scaled by k, -k and k. |
| `Matrices.CofactorColumns` | src/main/java/com/eru/rlbot/bot/common/Matrix3.java:68-80 | The columns of the scaled cofactor matrix are k (b x c), k (c x a) and k (a x b) for the rows a, b, c. |
| `Matrices.ProductColumns` | src/main/java/com/eru/rlbot/bot/common/Matrix3.java:111-116 | Column j of a product is the first factor applied to column j of the second. |
| `Matrices.DotVector` | src/main/java/com/eru/rlbot/bot/common/Matrix3.java:106-109 | The three row dot products. `IdentityNeutral` states that the identity leaves a vector unchanged. |
| `Matrices.DotMatrix` | src/main/java/com/eru/rlbot/bot/common/Matrix3.java:111-116 | Rows of the first factor against columns of the second. `ProductColumns`, `IdentityNeutral` and `Inverse` state its properties. |
| `Matrices.IdentityNeutral` | src/main/java/com/eru/rlbot/bot/common/Matrix3.java:106-116 | The identity is neutral on both sides of the matrix product and on vectors, and its trace is 3. |
| `Matrices.IsIdentity` | src/main/java/com/eru/rlbot/bot/common/Matrix3.java:119-121 | Comparing the three rows holds exactly for the identity matrix. |
| `Matrices.Trace` | src/main/java/com/eru/rlbot/bot/common/Matrix3.java:124-126 | The sum of the main diagonal. `TransposeInvolution` states that transposing keeps it, and `IdentityNeutral` that the identity has trace 3. |
| `BallPrediction.GetBallPrediction` | src/main/java/com/eru/rlbot/bot/common/DllHelper.java:14-28 | No prediction is available exactly when the interface throws or the first slice's velocity is zero. Otherwise the prediction is returned unchanged. |
| `BallPrediction.SliceIndexAfter` | src/main/java/com/eru/rlbot/bot/common/DllHelper.java:48-54 | The index found lies within the slices, at or after the start. |
| `BallPrediction.SliceIndexAfterIsFirst` | src/main/java/com/eru/rlbot/bot/common/DllHelper.java:48-54 | The slice found is strictly after the game time unless it is the last. Every slice before it is not after the game time. |
| `BallPrediction.SliceIndexAfterUnique` | src/main/java/com/eru/rlbot/bot/common/DllHelper.java:48-54 | Any index with those two properties is the one found. |
| `BallPrediction.PredictedBall` | src/main/java/com/eru/rlbot/bot/common/DllHelper.java:41-55 | The live ball without a prediction, else the slice at `SliceIndexAfter`. `PredictedBallIsFirstAfter` states what that slice is. |
| `BallPrediction.PredictedBallIsFirstAfter` | src/main/java/com/eru/rlbot/bot/common/DllHelper.java:41-55 | The result is the live ball exactly without a prediction. Otherwise it is the first slice after the game time, or the last slice when none is after it. |
| `BallPrediction.GetPredictedBallAtTime` | src/main/java/com/eru/rlbot/bot/common/DllHelper.java:41-55 | The scan with early return gives `PredictedBall` of the filtered prediction. |
| `Rectangles.Sort3` | src/main/java/com/eru/rlbot/common/Rectangle.java:31-34 | The three distances come out in ascending order. |
| `Rectangles.Sort3IsPermutation` | src/main/java/com/eru/rlbot/common/Rectangle.java:31-34 | Sorting only reorders the three distances: the multiset of the result is that of the input. |
| `Rectangles.ProductOfTwoSmallest` | src/main/java/com/eru/rlbot/common/Rectangle.java:31-36 | Sort, keep two, multiply. `ProductOfTwoSmallestDropsLargest`, `ProductOfTwoSmallestSymmetric` and `ProductOfTwoSmallestBounds` state its properties. |
| `Rectangles.Area` | src/main/java/com/eru/rlbot/common/Rectangle.java:26-37 | The product of the two smallest of the distances from corner a. `AreaPermutationInvariant` and `AreaBounds` state its properties. |
| `Rectangles.AreaFrom` | src/main/java/com/eru/rlbot/common/Rectangle.java:39-50 | The area from any perspective equals the area; the perspective is unused. |
| `Rectangles.ProductOfTwoSmallestDropsLargest` | src/main/java/com/eru/rlbot/common/Rectangle.java:31-36 | The area is the product of the two distances other than a largest one. |
| `Rectangles.ProductOfTwoSmallestSymmetric` | src/main/java/com/eru/rlbot/common/Rectangle.java:31-36 | The order of the three distances does not matter. |
| `Rectangles.AreaPermutationInvariant` | src/main/java/com/eru/rlbot/common/Rectangle.java:26-37 | Any exchange of corners b, c and d leaves the area unchanged. |
| `Rectangles.ProductOfTwoSmallestBounds` | src/main/java/com/eru/rlbot/common/Rectangle.java:31-36 | For non-negative distances the product is non-negative and at most the product of any two of them. |
| `Rectangles.AreaBounds` | src/main/java/com/eru/rlbot/common/Rectangle.java:26-37 | For a non-negative distance, the area is non-negative and at most the product of any two corner distances. |

## Left out

- Rendering and logging. This covers `renderTactics`, `renderTime`, `botRenderer.setTactic`, `setBranchInfo`, `renderProjection`, `addAlertText` and the log4j calls, including the diagnostic distance in `executePath`. No logic depends on them.
- `TacticManager.updateTactics`: it only forwards to `Tactic.updateTactic`. Tactic is not part of this model.
- Strategy behaviour. `Execute` records which strategy is invoked and with which tactic. What a strategy does during the call is not modelled. That includes any change a strategy makes to the queue while the call runs.
- Tactic target. A tactic's target moment is reduced to its position. `Tactic.isDone` becomes the `headDone` argument of `Execute`.
- Unregistered kinds. The code's map lookup returns null for an unregistered kind, and the call on it then throws. This is modelled as `Failed(NullReference)`, with `OtherType` standing for every kind without a strategy. The case is arguably a configuration error; the model follows the code.
- `setTacticComplete`. The manager shown has no such method, so the rolling strategy's call to it is modelled as the `completed` result of `Execute`.
- `RLBotDll.getBallPrediction`. The native call and its exception are the `NativeAnswer` argument.
- `BallPrediction.GetBallPrediction`: requires a prediction to hold at least one slice. For an empty one, the Java code reads slice 0 of an empty buffer, which the native library does not define.
- Unseen helpers become real-valued arguments. These are `Math.sin`, `Math.cos`, `Angles.flatCorrectionAngle`, `Angles.flatCorrectionDirection`, the `Accels` times, vector lengths, distances and angles, `Path.pidTarget` and `Path.getSegment`.
- Unseen constants. `Path.LEAD_TIME` and `Path.LEAD_FRAMES` are the fields of `Lead`, and `BoundingBox.frontToRj` is an argument.
- Orientation. `Angles3.pointAnyDirection` and `setControlsForFlatLanding` are recorded as the `aim` field of the controls, not as pitch, yaw and roll.
- Side effects as results. The flip request is recorded as its target, and the off-course marking as a boolean result.
- Clamping. Any clamping of steer or throttle inside `Controls` is not modelled, because Controls is not part of this model.
- Segment kinds. `Segment.isStraight()` is taken to mean the segment's kind is STRAIGHT.
- `Paths.Drive`: requires a ground speed in (0, 2500), a positive speed and a positive target distance. At other values the Java divisions give infinities or NaN.
  - A zero speed could be read as an infinite time to the target. The code has no such guard, and neither does the model.
- `Paths.ExecutePath`: requires the same as `Paths.Drive`, for the same reason.
- `Paths.Drive` and `Paths.ExecutePath` set the handbrake by the signed comparison as written (`SlideAsWritten`), so a negative turn never slides. The mirror-symmetric rule `Paths.Slide` is stated and proved beside it but not used by the tick.
- `Paths.ExecuteSimplePath`: requires a positive ground speed on the ground. The Java division by ground speed is unguarded.
- Curvature at 2500. The table is not continuous at 2500: it drops from 0.0008 to 0 (`Constants.CurvatureDropsAtLimit`). The model keeps the drop as written.
- Undefined radius. An infinite radius, or an infinite product with it, is `None` rather than a Java infinity or NaN.
- Rounding. Float and double rounding are not modelled; everything is over the reals.
- Stub strategies. `TakeTheShotTactician` and `ShadowTactician` only return false.

## Findings

| source | as written | input that shows it | evidently intended | confidence | as-written member | corrected member |
|---|---|---|---|---|---|---|
| src/main/java/com/eru/rlbot/bot/common/Constants.java:73-74 | on [1400, 1410) the acceleration is `(v - 1400) * 20`, which rises from 0 | v = 1399.5 gives 200.5, v = 1400 gives 0, v = 1405 gives 100 | `(1410 - v) * 20`, falling from 200 to 0 so that the table is continuous and non-increasing | not executed; likely | `Constants.AccelerationAsWrittenJumps` | `Constants.AccelerationContinuousNonIncreasing` |
| src/main/java/com/eru/rlbot/bot/path/PathExecutor.java:90 | the handbrake compares the signed needed curvature with 1.1 times the largest curvature | ground speed 1200, target 100 away: at sine 1 the curvature 0.02 slides, at sine -1 the curvature -0.02 never does | compare the absolute curvature, as the bare-target rule does with `Math.abs` at line 153 | not executed; likely | `Paths.SlideAsWrittenIgnoresNegativeTurns` | `Paths.SlideMirrorSymmetric` |

`Paths.Drive` and `Paths.ExecutePath` keep the handbrake as written, with
`Paths.SlideAsWritten`; `Paths.Slide` is the corrected rule. No other member
uses the acceleration table, and `Constants.Acceleration` is its corrected
form.
