/**
  The app's goals store: the list of savings goals, changed in place by appending,
  replacing the goal with a given identity, removing by position and clearing.
 */
module GoalsStores {
  import opened Wrappers
  import opened Sequences
  import opened Transactions
  import opened Goals

  /** `firstIndex(where: { $0.id == id })`: the position of the first goal with identity `id`. */
  function FirstIndexOf(goals: seq<Goal>, id: Uuid): (r: Option<nat>)
    ensures r.None? <==> forall k :: 0 <= k < |goals| ==> goals[k].id != id
    ensures r.Some? ==> r.value < |goals| && goals[r.value].id == id
    ensures r.Some? ==> forall k :: 0 <= k < r.value ==> goals[k].id != id
  {
    if goals == [] then None
    else if goals[0].id == id then Some(0)
    else
      match FirstIndexOf(goals[1..], id)
      case None => None
      case Some(i) => Some(i + 1)
  }

  /** After the first goal with a given identity is replaced by a goal with the same
      identity, looking that identity up finds the same position, so a later update reaches
      the goal just written. */
  lemma {:induction false} FirstIndexAfterReplace(goals: seq<Goal>, i: nat, g: Goal)
    requires FirstIndexOf(goals, g.id) == Some(i)
    ensures FirstIndexOf(goals[i := g], g.id) == Some(i)
  {
    var updated := goals[i := g];
    var r := FirstIndexOf(updated, g.id);
    assert updated[i].id == g.id;
    assert r.Some?;
    if r.value < i {
      assert false;
    } else if r.value > i {
      assert false;
    }
  }

  class GoalsStore {
    /** The goals, in the order they were added. */
    var goals: seq<Goal>

    /** A fresh store holds no goals (loading saved ones is not modelled). */
    constructor()
      ensures goals == []
    {
      goals := [];
    }

    /** `addGoal`: the goal goes at the end; the earlier ones stay as they were. */
    method AddGoal(g: Goal)
      modifies this
      ensures goals == old(goals) + [g]
    {
      goals := goals + [g];
    }

    /** `updateGoal`: the first goal with the same identity is replaced by `g`, every other
        goal is kept; without a goal of that identity nothing changes. */
    method UpdateGoal(g: Goal)
      modifies this
      ensures (forall k :: 0 <= k < |old(goals)| ==> old(goals)[k].id != g.id) ==> goals == old(goals)
      ensures |goals| == |old(goals)|
      ensures forall k :: 0 <= k < |goals| ==>
        goals[k] == if Some(k) == FirstIndexOf(old(goals), g.id) then g else old(goals)[k]
    {
      var index := FirstIndexOf(goals, g.id);
      if index.Some? {
        goals := goals[index.value := g];
      }
    }

    /** `deleteGoals(at:)`: exactly the goals at the given offsets are removed, and the others
        keep their relative order. */
    method DeleteGoals(offsets: set<nat>)
      requires forall k :: k in offsets ==> k < |goals|
      modifies this
      ensures goals == RemoveOffsets(old(goals), offsets)
      ensures |goals| == |old(goals)| - |offsets|
    {
      KeptIndicesCount(|goals|, offsets);
      goals := RemoveOffsets(goals, offsets);
    }

    /** `clearAll`: the store is emptied. */
    method ClearAll()
      modifies this
      ensures goals == []
    {
      goals := [];
    }

    /** `contributeToGoal(_:amount:)`: the slot of the first goal with the argument's identity
        receives the argument goal with `amount` added to its saved amount. The argument's
        other fields win over the stored goal's. Every other slot is kept; without a goal of
        that identity nothing changes. */
    method ContributeToGoal(g: Goal, amount: Amount)
      modifies this
      ensures (forall k :: 0 <= k < |old(goals)| ==> old(goals)[k].id != g.id) ==> goals == old(goals)
      ensures |goals| == |old(goals)|
      ensures forall k :: 0 <= k < |goals| ==>
        goals[k] == if Some(k) == FirstIndexOf(old(goals), g.id)
                    then g.(currentAmount := g.currentAmount + amount)
                    else old(goals)[k]
    {
      var index := FirstIndexOf(goals, g.id);
      if index.Some? {
        var updatedGoal := g;
        updatedGoal := updatedGoal.(currentAmount := updatedGoal.currentAmount + amount);
        goals := goals[index.value := updatedGoal];
      }
    }
  }
}
