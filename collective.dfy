/** `updateCollectiveMission` (services/db.ts): a contribution to a
    territory-wide goal.  The value is added with no guard on its sign,
    the goal latches `is_completed` once `current_value >= goal_value`, and
    a victory chronicle is written only in that branch. */
module Collective {
  import opened Types
  import opened Lists

  /** The update applied to the collective mission the id selects. */
  function Contribute(cm: CollectiveMission, value: real, chronicle: Option<string>): (r: CollectiveMission)
    ensures r.currentValue == cm.currentValue + value
    ensures r.isCompleted <==> cm.isCompleted || r.currentValue >= cm.goalValue
    ensures r.victoryChronicle == if r.currentValue >= cm.goalValue && Truthy(chronicle) then chronicle else cm.victoryChronicle
    ensures r.(currentValue := cm.currentValue, isCompleted := cm.isCompleted, victoryChronicle := cm.victoryChronicle) == cm
  {
    var current := cm.currentValue + value;
    if current >= cm.goalValue then
      cm.(currentValue := current, isCompleted := true,
          victoryChronicle := if Truthy(chronicle) then chronicle else cm.victoryChronicle)
    else
      cm.(currentValue := current)
  }

  /** `missions.find(m => m.id === id)`: the first collective mission with this id. */
  function CollectiveIndex(cms: seq<CollectiveMission>, id: string): (r: Option<nat>)
    ensures r.Some? ==> r.value < |cms| && cms[r.value].id == id && forall j :: 0 <= j < r.value ==> cms[j].id != id
    ensures r.None? <==> forall j :: 0 <= j < |cms| ==> cms[j].id != id
  {
    FirstIndex(cms, (cm: CollectiveMission) => cm.id == id)
  }

  /** The whole of `updateCollectiveMission`: the new list of collective
      missions and the updated mission, or the not-found error. */
  function UpdateCollectiveMission(cms: seq<CollectiveMission>, id: string, value: real, chronicle: Option<string>)
    : (r: Result<(seq<CollectiveMission>, CollectiveMission)>)
    ensures r.Err? <==> forall j :: 0 <= j < |cms| ==> cms[j].id != id
    ensures r.Err? ==> r.error == CollectiveMissionNotFound
    ensures r.Ok? ==> exists i :: 0 <= i < |cms| && cms[i].id == id && (forall j :: 0 <= j < i ==> cms[j].id != id)
                                  && r.value.1 == Contribute(cms[i], value, chronicle)
                                  && r.value.0 == cms[i := r.value.1]
  {
    match CollectiveIndex(cms, id)
    case None => Err(CollectiveMissionNotFound)
    case Some(i) =>
      var updated := Contribute(cms[i], value, chronicle);
      Ok((cms[i := updated], updated))
  }

  /** Once reached, a goal stays completed: `is_completed` is set whenever
      `current_value >= goal_value` and is never reset. */
  ghost predicate ReachedIsCompleted(cm: CollectiveMission) {
    cm.currentValue >= cm.goalValue ==> cm.isCompleted
  }

  lemma ContributeKeepsReachedCompleted(cm: CollectiveMission, value: real, chronicle: Option<string>)
    requires ReachedIsCompleted(cm)
    ensures ReachedIsCompleted(Contribute(cm, value, chronicle))
  {
  }

  // ---- a history of contributions (repeated calls without a chronicle) ----

  function Sum(values: seq<real>): (r: real) {
    if |values| == 0 then 0.0 else Sum(values[..|values| - 1]) + values[|values| - 1]
  }

  /** Applies the contributions in order, as successive calls do. */
  function ContributeAll(cm: CollectiveMission, values: seq<real>): (r: CollectiveMission) {
    if |values| == 0 then cm
    else Contribute(ContributeAll(cm, values[..|values| - 1]), values[|values| - 1], None)
  }

  /** Some prefix of the contributions brought the total to the goal. */
  ghost predicate GoalReachedAlong(cm: CollectiveMission, values: seq<real>) {
    exists k :: 1 <= k <= |values| && cm.currentValue + Sum(values[..k]) >= cm.goalValue
  }

  /** After any history of contributions the total is the start plus their
      sum, the rest of the record keeps its identity and goal, the chronicle
      is untouched, and the goal is completed exactly when it was already,
      or when the running total reached the goal at some point: a
      later withdrawal never resets the latch. */
  lemma {:induction false} ContributeAllEffect(cm: CollectiveMission, values: seq<real>)
    ensures ContributeAll(cm, values).currentValue == cm.currentValue + Sum(values)
    ensures ContributeAll(cm, values).(currentValue := cm.currentValue, isCompleted := cm.isCompleted) == cm
    ensures ContributeAll(cm, values).isCompleted <==> cm.isCompleted || GoalReachedAlong(cm, values)
  {
    if |values| > 0 {
      var n := |values| - 1;
      var prefix := values[..n];
      ContributeAllEffect(cm, prefix);
      assert values[..n + 1] == values;
      forall k | 1 <= k <= n
        ensures Sum(prefix[..k]) == Sum(values[..k])
      {
        assert prefix[..k] == values[..k];
      }
    }
  }

  /** With non-negative contributions the total never decreases; there is no
      guard in the source, so a negative value lowers it. */
  lemma {:induction false} ContributeAllMonotonic(cm: CollectiveMission, values: seq<real>)
    requires forall i :: 0 <= i < |values| ==> values[i] >= 0.0
    ensures ContributeAll(cm, values).currentValue >= cm.currentValue
  {
    if |values| > 0 {
      ContributeAllMonotonic(cm, values[..|values| - 1]);
    }
  }

  /** The ritual (views/Ritual.tsx) attaches a chronicle to a completed goal
      with a contribution of 0: the total is unchanged and the chronicle is
      written, provided it is not empty. */
  lemma AttachChronicle(cm: CollectiveMission, chronicle: string)
    requires cm.currentValue >= cm.goalValue && chronicle != ""
    ensures Contribute(cm, 0.0, Some(chronicle)) == cm.(isCompleted := true, victoryChronicle := Some(chronicle))
  {
  }

  /** Below the goal a chronicle is dropped, even with a contribution of 0. */
  lemma ChronicleNeedsGoal(cm: CollectiveMission, value: real, chronicle: Option<string>)
    requires cm.currentValue + value < cm.goalValue
    ensures Contribute(cm, value, chronicle).victoryChronicle == cm.victoryChronicle
    ensures Contribute(cm, value, chronicle).isCompleted == cm.isCompleted
  {
  }

  /** A goal of 1000 at 650 reaches 1050 and completes on a contribution of
      400; a further 50 is still added (1100): the source does not refuse
      contributions to a completed goal. */
  lemma ContributionExample(cm: CollectiveMission)
    requires cm.goalValue == 1000.0 && cm.currentValue == 650.0 && !cm.isCompleted
    ensures Contribute(cm, 400.0, None).currentValue == 1050.0 && Contribute(cm, 400.0, None).isCompleted
    ensures Contribute(Contribute(cm, 400.0, None), 50.0, None).currentValue == 1100.0
  {
  }
}
