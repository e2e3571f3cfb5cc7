/** Access to the native ball prediction: the filter applied to what the
    native interface answers, and the lookup of the predicted ball at a
    given game time. */
module BallPrediction {
  import opened Common

  /** One predicted state of the ball. */
  datatype Slice = Slice(gameSeconds: real, location: Vector3, velocity: Vector3)

  /** What the native interface gives back: a prediction, or an exception. */
  datatype NativeAnswer = Prediction(slices: seq<Slice>) | InterfaceException

  /** The bot's view of the ball. */
  datatype BallData = BallData(position: Vector3, velocity: Vector3, time: real)

  /** The ball state read off a prediction slice. */
  function FromSlice(s: Slice): BallData
  {
    BallData(s.location, s.velocity, s.gameSeconds)
  }

  /** A prediction holds at least one slice. */
  predicate WellFormed(answer: NativeAnswer)
  {
    answer.Prediction? ==> |answer.slices| > 0
  }

  /** The usable prediction: none when the interface throws, none when the
      first slice has a velocity of norm 0 (the game has not started), and
      otherwise the prediction unchanged. */
  function GetBallPrediction(answer: NativeAnswer): (r: Option<seq<Slice>>)
    requires WellFormed(answer)
    ensures r.None? <==> answer.InterfaceException? || answer.slices[0].velocity == Zero
    ensures r.Some? ==> r.value == answer.slices && |r.value| > 0
  {
    match answer
    case InterfaceException => None
    case Prediction(slices) =>
      if slices[0].velocity == Zero then None else Some(slices)
  }

  /** The index of the first slice at or after `from` that lies strictly
      after `gameTime`, or the last index when there is none. */
  function SliceIndexAfter(slices: seq<Slice>, gameTime: real, from: nat): (k: nat)
    requires from < |slices|
    ensures from <= k < |slices|
    decreases |slices| - from
  {
    if slices[from].gameSeconds > gameTime || from == |slices| - 1 then from
    else SliceIndexAfter(slices, gameTime, from + 1)
  }

  /** The slice found is strictly after `gameTime` unless it is the last,
      and every slice it skips is not. */
  lemma {:induction false} SliceIndexAfterIsFirst(slices: seq<Slice>, gameTime: real, from: nat)
    requires from < |slices|
    ensures var k := SliceIndexAfter(slices, gameTime, from);
      && (slices[k].gameSeconds > gameTime || k == |slices| - 1)
      && forall j :: from <= j < k ==> slices[j].gameSeconds <= gameTime
    decreases |slices| - from
  {
    if !(slices[from].gameSeconds > gameTime || from == |slices| - 1) {
      SliceIndexAfterIsFirst(slices, gameTime, from + 1);
    }
  }

  /** Conversely, an index with those two properties is the one found. */
  lemma {:induction false} SliceIndexAfterUnique(slices: seq<Slice>, gameTime: real, from: nat, k: nat)
    requires from <= k < |slices|
    requires slices[k].gameSeconds > gameTime || k == |slices| - 1
    requires forall j :: from <= j < k ==> slices[j].gameSeconds <= gameTime
    ensures SliceIndexAfter(slices, gameTime, from) == k
    decreases |slices| - from
  {
    if from < k {
      SliceIndexAfterUnique(slices, gameTime, from + 1, k);
    }
  }

  /** The predicted ball at `gameTime`: the live ball without a usable
      prediction, else the first slice strictly after `gameTime`, else the
      last slice. */
  function PredictedBall(ball: BallData, gameTime: real, prediction: Option<seq<Slice>>): BallData
    requires prediction.Some? ==> |prediction.value| > 0
  {
    match prediction
    case None => ball
    case Some(slices) => FromSlice(slices[SliceIndexAfter(slices, gameTime, 0)])
  }

  /** The predicted ball is the live ball exactly without a prediction, and
      otherwise a slice that is the first after `gameTime`, or the last slice
      when no slice is after `gameTime`. */
  lemma PredictedBallIsFirstAfter(ball: BallData, gameTime: real, prediction: Option<seq<Slice>>)
    requires prediction.Some? ==> |prediction.value| > 0
    ensures prediction.None? ==> PredictedBall(ball, gameTime, prediction) == ball
    ensures prediction.Some? ==> var slices := prediction.value;
      exists k :: 0 <= k < |slices| && PredictedBall(ball, gameTime, prediction) == FromSlice(slices[k])
        && (slices[k].gameSeconds > gameTime || k == |slices| - 1)
        && forall j :: 0 <= j < k ==> slices[j].gameSeconds <= gameTime
    ensures prediction.Some? && (forall j :: 0 <= j < |prediction.value| ==> prediction.value[j].gameSeconds <= gameTime)
      ==> PredictedBall(ball, gameTime, prediction) == FromSlice(prediction.value[|prediction.value| - 1])
  {
    if prediction.Some? {
      var slices := prediction.value;
      SliceIndexAfterIsFirst(slices, gameTime, 0);
      var k := SliceIndexAfter(slices, gameTime, 0);
      assert PredictedBall(ball, gameTime, prediction) == FromSlice(slices[k]);
    }
  }

  /** Looks up the predicted ball at `gameTime` by scanning the slices in
      order and returning at the first one after `gameTime`. */
  method GetPredictedBallAtTime(ball: BallData, gameTime: real, answer: NativeAnswer) returns (r: BallData)
    requires WellFormed(answer)
    ensures r == PredictedBall(ball, gameTime, GetBallPrediction(answer))
  {
    var predictionOptional := GetBallPrediction(answer);
    if predictionOptional.None? {
      return ball;
    }
    var slices := predictionOptional.value;
    var i := 0;
    while i < |slices|
      invariant 0 <= i <= |slices|
      invariant forall j :: 0 <= j < i ==> slices[j].gameSeconds <= gameTime
    {
      if slices[i].gameSeconds > gameTime {
        SliceIndexAfterUnique(slices, gameTime, 0, i);
        return FromSlice(slices[i]);
      }
      i := i + 1;
    }
    SliceIndexAfterUnique(slices, gameTime, 0, |slices| - 1);
    return FromSlice(slices[|slices| - 1]);
  }
}
