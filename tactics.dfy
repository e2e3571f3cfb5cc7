/** The tactic queue of the bot: a first-in first-out list of intents, with
    a permanent default (dribble toward the opponents' goal) that is active
    whenever the list is empty, and the dispatch of the active tactic to the
    strategy registered for its type. */
module Tactics {
  import opened Common

  /** The kinds of tactic. `OtherType` stands for any further kind, which has
      no strategy registered for it. */
  datatype TacticType =
    | FrontFlip
    | WallRide
    | HitBall
    | Defend
    | Dribble
    | Kickoff
    | WaveDash
    | OtherType(name: string)

  /** An intent: a target position and a kind. */
  datatype Tactic = Tactic(target: Vector3, tacticType: TacticType)

  /** The strategies a tactic can be handed to. */
  datatype Tactician =
    | FlipTactician
    | SideWallTactician
    | RollingTactician
    | BackupTactician
    | DribbleTactician
    | KickoffTactician
    | WaveDashTactician

  /** The registry of strategies by kind of tactic. */
  const TacticianMap: map<TacticType, Tactician> := map[
    FrontFlip := FlipTactician,
    WallRide := SideWallTactician,
    HitBall := RollingTactician,
    Defend := BackupTactician,
    Dribble := DribbleTactician,
    Kickoff := KickoffTactician,
    WaveDash := WaveDashTactician]

  /** The strategy registered for a kind; `None` is the null a map lookup
      gives for a kind without a strategy. */
  function LookupTactician(t: TacticType): (r: Option<Tactician>)
    ensures r.Some? <==> !t.OtherType?
    ensures r.Some? ==> t in TacticianMap && r.value == TacticianMap[t]
  {
    if t in TacticianMap then Some(TacticianMap[t]) else None
  }

  /** The active tactic of a queue: its head, or the default when it is empty. */
  function Active(queue: seq<Tactic>, default: Tactic): (t: Tactic)
    ensures t == default || t in queue
    ensures |queue| > 0 ==> t == queue[0]
    ensures |queue| == 0 ==> t == default
  {
    if |queue| == 0 then default else queue[0]
  }

  /** What one tick of execution did: the strategy invoked and the tactic it
      was given, or the exception that ended the tick. */
  datatype Outcome =
    | Dispatched(tactician: Tactician, tactic: Tactic)
    | Failed(error: Error)

  /** One tick on a queue whose active tactic reports `headDone`: pop the
      head when it is done (an empty queue throws), look up and invoke the
      strategy of the new active tactic (a null strategy throws), then drop
      the head once more. Gives the new queue and the outcome. */
  function ExecuteStep(queue: seq<Tactic>, default: Tactic, headDone: bool): (r: (seq<Tactic>, Outcome))
    ensures |r.0| <= |queue|
    ensures r.1.Dispatched? ==> LookupTactician(r.1.tactic.tacticType) == Some(r.1.tactician)
  {
    if headDone && |queue| == 0 then (queue, Failed(NoSuchElement))
    else
      var popped := if headDone then queue[1..] else queue;
      var active := Active(popped, default);
      match LookupTactician(active.tacticType)
      case None => (popped, Failed(NullReference))
      case Some(tactician) =>
        (if |popped| > 0 then popped[1..] else popped, Dispatched(tactician, active))
  }

  function Min(a: nat, b: nat): nat
  {
    if a <= b then a else b
  }

  /** A tick fails exactly when a done tactic is popped off an empty queue or
      the active tactic after the pop has no strategy; a failed pop leaves
      the queue as it was, a missing strategy leaves it popped, and a
      successful tick drops the first min(n, 1 + [done]) entries. */
  lemma ExecuteStepQueue(queue: seq<Tactic>, default: Tactic, headDone: bool)
    ensures var (rest, outcome) := ExecuteStep(queue, default, headDone);
      var d := if headDone then 1 else 0;
      && (outcome == Failed(NoSuchElement) <==> headDone && |queue| == 0)
      && (outcome == Failed(NullReference) <==>
            !(headDone && |queue| == 0) && Active(queue[d..], default).tacticType.OtherType?)
      && (outcome.Failed? ==> outcome.error == NoSuchElement || outcome.error == NullReference)
      && (outcome == Failed(NoSuchElement) ==> rest == queue)
      && (outcome == Failed(NullReference) ==> rest == queue[d..])
      && (outcome.Dispatched? ==> rest == queue[Min(|queue|, d + 1)..])
  {
  }

  /** Whatever happens, the queue left behind is a suffix of the original:
      nothing is added, reordered or changed by a tick. */
  lemma ExecuteStepLeavesSuffix(queue: seq<Tactic>, default: Tactic, headDone: bool)
    ensures var rest := ExecuteStep(queue, default, headDone).0;
      exists k :: 0 <= k <= |queue| && rest == queue[k..]
  {
    ExecuteStepQueue(queue, default, headDone);
    var (rest, outcome) := ExecuteStep(queue, default, headDone);
    var d := if headDone then 1 else 0;
    if outcome == Failed(NoSuchElement) {
      assert rest == queue[0..];
    } else if outcome.Failed? {
      assert rest == queue[d..];
    } else {
      assert rest == queue[Min(|queue|, d + 1)..];
    }
  }

  /** The strategy invoked is the one registered for the active tactic after
      the completion pop, and it is given that tactic. */
  lemma ExecuteStepDispatch(queue: seq<Tactic>, default: Tactic, headDone: bool)
    requires !(headDone && |queue| == 0)
    ensures var active := Active(if headDone then queue[1..] else queue, default);
      var outcome := ExecuteStep(queue, default, headDone).1;
      outcome.Dispatched? <==> active.tacticType in TacticianMap
    ensures var active := Active(if headDone then queue[1..] else queue, default);
      var outcome := ExecuteStep(queue, default, headDone).1;
      outcome.Dispatched? ==>
        outcome.tactic == active && outcome.tactician == TacticianMap[active.tacticType]
  {
  }

  /** The default kind, dribble, always has a strategy: on an empty queue
      that is not done, a tick invokes the dribble strategy with the default
      and leaves the queue empty. */
  lemma DefaultIsRegistered(default: Tactic)
    requires default.tacticType == Dribble
    ensures LookupTactician(default.tacticType) == Some(DribbleTactician)
    ensures ExecuteStep([], default, false) == ([], Dispatched(DribbleTactician, default))
  {
  }

  class TacticManager {
    /** The tactic toward the own goal; built but not used by the queue. */
    const defendTactic: Tactic
    /** The tactic active whenever the queue is empty. */
    const defaultTactic: Tactic
    var tacticList: seq<Tactic>
    /** Where the queue ultimately leads; only drawn. */
    var endGoal: Option<Vector3>

    predicate Valid()
      reads this
    {
      defaultTactic.tacticType == Dribble
    }

    /** A manager with an empty queue whose default dribbles toward the
        centre of the opponents' goal. */
    constructor(ownGoalCenter: Vector3, opponentsGoalCenter: Vector3)
      ensures Valid()
      ensures defendTactic == Tactic(ownGoalCenter, Defend)
      ensures defaultTactic == Tactic(opponentsGoalCenter, Dribble)
      ensures tacticList == [] && endGoal == None
    {
      defendTactic := Tactic(ownGoalCenter, Defend);
      defaultTactic := Tactic(opponentsGoalCenter, Dribble);
      tacticList := [];
      endGoal := None;
    }

    /** The active tactic; the source spells it both `nextTactic` and
        `getTactic`. */
    function GetTactic(): (t: Tactic)
      reads this
      ensures |tacticList| > 0 ==> t == tacticList[0]
      ensures |tacticList| == 0 ==> t == defaultTactic
    {
      Active(tacticList, defaultTactic)
    }

    /** The target of the active tactic. */
    function GetNextTarget(): (p: Vector3)
      reads this
      ensures |tacticList| > 0 ==> p == tacticList[0].target
      ensures |tacticList| == 0 ==> p == defaultTactic.target
    {
      GetTactic().target
    }

    /** The strategy registered for the active tactic's kind, `None` for null. */
    function GetTactician(): (r: Option<Tactician>)
      reads this
      ensures r.Some? <==> !GetTactic().tacticType.OtherType?
      ensures Valid() && |tacticList| == 0 ==> r == Some(DribbleTactician)
    {
      LookupTactician(GetTactic().tacticType)
    }

    /** Appends a tactic at the end of the queue. */
    method AddTactic(tactic: Tactic)
      modifies this
      ensures tacticList == old(tacticList) + [tactic]
      ensures tacticList[..|old(tacticList)|] == old(tacticList)
      ensures |old(tacticList)| > 0 ==> GetTactic() == old(GetTactic())
      ensures endGoal == old(endGoal)
    {
      tacticList := tacticList + [tactic];
    }

    /** Replaces the whole queue by the one tactic, which becomes active. */
    method SetTactic(tactic: Tactic)
      modifies this
      ensures tacticList == [tactic]
      ensures GetTactic() == tactic
      ensures endGoal == old(endGoal)
    {
      tacticList := [];
      tacticList := tacticList + [tactic];
    }

    /** Empties the queue, so the default (dribble) tactic becomes active. */
    method ClearTactics()
      requires Valid()
      modifies this
      ensures tacticList == []
      ensures GetTactic() == defaultTactic && GetTactic().tacticType == Dribble
      ensures endGoal == old(endGoal)
    {
      tacticList := [];
    }

    method SetEndGoal(targetLocation: Vector3)
      modifies this
      ensures endGoal == Some(targetLocation)
      ensures tacticList == old(tacticList)
    {
      endGoal := Some(targetLocation);
    }

    /** One tick: `headDone` is what the active tactic answers when asked
        whether it is done. The strategy itself is not run here; the outcome
        names it and the tactic it is given. */
    method Execute(headDone: bool) returns (outcome: Outcome)
      modifies this
      ensures (tacticList, outcome) == ExecuteStep(old(tacticList), defaultTactic, headDone)
      ensures endGoal == old(endGoal)
    {
      if headDone {
        if |tacticList| == 0 {
          return Failed(NoSuchElement);
        }
        tacticList := tacticList[1..];
      }
      var tactician := GetTactician();
      if tactician.None? {
        return Failed(NullReference);
      }
      outcome := Dispatched(tactician.value, GetTactic());
      var result := true;
      if result && |tacticList| > 0 {
        tacticList := tacticList[1..];
      }
    }
  }
}
