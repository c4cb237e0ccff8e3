/**
 * The `useGoals` hook: the browser's copy of the goal list, updated only after an OK response.
 * Unlike the server, its progress update clamps the shown value to the goal's target.
 */
module UseGoals {
  import opened Wrappers
  import opened Types
  import UseTasks
  import JsArray
  import MongoTypes
  import GoalSchema
  import GoalsController

  /** `prev.map(goal => goal._id === id ? { ...goal, ...updates } : goal)`. */
  function MergeById(goals: seq<Goal>, id: string, updates: GoalPatch): (r: seq<Goal>)
    ensures |r| == |goals|
    ensures forall i :: 0 <= i < |goals| && goals[i].id != id ==> r[i] == goals[i]
    ensures forall i :: 0 <= i < |goals| && goals[i].id == id ==> r[i] == MergeGoal(goals[i], updates)
  {
    seq(|goals|, i requires 0 <= i < |goals| => if goals[i].id == id then MergeGoal(goals[i], updates) else goals[i])
  }

  /** `prev.filter(goal => goal._id !== id)`. */
  function RemoveById(goals: seq<Goal>, id: string): (r: seq<Goal>)
    ensures forall i :: 0 <= i < |r| ==> r[i].id != id && r[i] in goals
    ensures forall i :: 0 <= i < |goals| && goals[i].id != id ==> goals[i] in r
  {
    JsArray.Filter(goals, (g: Goal) => g.id != id)
  }

  /**
   * Removal keeps the order of the goals that stay: removing from a concatenation removes from
   * each part, in turn, and a single goal stays exactly when its id differs.
   */
  lemma {:induction false} RemoveKeepsOrder(a: seq<Goal>, b: seq<Goal>, g: Goal, id: string)
    ensures RemoveById(a + b, id) == RemoveById(a, id) + RemoveById(b, id)
    ensures RemoveById([g], id) == if g.id != id then [g] else []
  {
    JsArray.FilterAppend(a, b, (g: Goal) => g.id != id);
  }

  /** `Math.min(a, b)`. */
  function Min(a: real, b: real): (m: real)
    ensures m <= a && m <= b && (m == a || m == b)
  {
    if a <= b then a else b
  }

  /** `prev.map(goal => goal._id === id ? { ...goal, currentValue: Math.min(value, goal.targetValue) } : goal)`. */
  function ProgressById(goals: seq<Goal>, id: string, value: real): (r: seq<Goal>)
    ensures |r| == |goals|
    ensures forall i :: 0 <= i < |goals| && goals[i].id != id ==> r[i] == goals[i]
    ensures forall i :: 0 <= i < |goals| && goals[i].id == id ==>
      r[i] == goals[i].(currentValue := Min(value, goals[i].targetValue))
  {
    seq(|goals|, i requires 0 <= i < |goals| =>
      if goals[i].id == id then goals[i].(currentValue := Min(value, goals[i].targetValue)) else goals[i])
  }

  /**
   * After a progress update the updated goals never show more than their target, show exactly
   * the value sent when it is within the target, and nothing bounds them from below.
   */
  lemma ProgressCappedAtTarget(goals: seq<Goal>, id: string, value: real)
    ensures forall i :: 0 <= i < |goals| && goals[i].id == id ==>
      ProgressById(goals, id, value)[i].currentValue <= goals[i].targetValue
    ensures forall i :: 0 <= i < |goals| && goals[i].id == id && value <= goals[i].targetValue ==>
      ProgressById(goals, id, value)[i].currentValue == value
    ensures forall i :: 0 <= i < |goals| && goals[i].id == id && value < 0.0 <= goals[i].targetValue ==>
      ProgressById(goals, id, value)[i].currentValue < 0.0
  {
  }

  /** Sending the same progress twice shows the same as sending it once. */
  lemma ProgressIdempotent(goals: seq<Goal>, id: string, value: real)
    ensures ProgressById(ProgressById(goals, id, value), id, value) == ProgressById(goals, id, value)
  {
  }

  /** Merging the same updates twice is merging them once. */
  lemma MergeIdempotent(goals: seq<Goal>, id: string, updates: GoalPatch)
    ensures MergeById(MergeById(goals, id, updates), id, updates) == MergeById(goals, id, updates)
  {
    var once := MergeById(goals, id, updates);
    forall i | 0 <= i < |goals|
      ensures MergeById(once, id, updates)[i] == once[i]
    {
      if goals[i].id == id {
        MergeGoalIdempotent(goals[i], updates);
      }
    }
  }

  /** Deleting an id the list does not hold leaves it unchanged; otherwise the list gets shorter. */
  lemma {:induction false} RemoveShrinks(goals: seq<Goal>, id: string)
    ensures (forall i :: 0 <= i < |goals| ==> goals[i].id != id) <==> RemoveById(goals, id) == goals
    ensures (exists i :: 0 <= i < |goals| && goals[i].id == id) ==> |RemoveById(goals, id)| < |goals|
  {
    JsArray.FilterAll(goals, (g: Goal) => g.id != id);
    JsArray.FilterSplit(goals, (g: Goal) => g.id != id, (g: Goal) => g.id == id);
    if exists i :: 0 <= i < |goals| && goals[i].id == id {
      var i :| 0 <= i < |goals| && goals[i].id == id;
      assert goals[i] in JsArray.Filter(goals, (g: Goal) => g.id == id);
    }
  }

  /**
   * The browser and the server disagree after a progress update above the target: the server
   * stores the value sent, the browser shows the target.
   */
  lemma ProgressViewsDiverge(s: GoalsController.Store, goals: seq<Goal>, i: nat, value: real)
    requires GoalsController.Keyed(s) && i < |goals| && goals[i].id in s
    requires s[goals[i].id].targetValue == goals[i].targetValue < value
    ensures GoalsController.ProgressStore(s, goals[i].id, value)[goals[i].id].currentValue == value
    ensures ProgressById(goals, goals[i].id, value)[i].currentValue == goals[i].targetValue < value
  {
  }

  /**
   * The body `addGoal` posts is the form's payload, which carries no `userID`; the goal schema
   * rejects every such body.
   */
  lemma PostedBodyLacksOwner(p: NewGoal, deadline: MongoTypes.Instant, newId: MongoTypes.ObjectId, now: MongoTypes.Instant)
    ensures GoalSchema.NewGoal(GoalSchema.GoalBody(None, None, Some(p.title), Some(p.description), Some(p.currentValue),
                                                   Some(p.targetValue), Some(p.unit), Some(p.category), Some(deadline),
                                                   None, None), newId, now).Failure?
  {
  }

  /** The `goals` state of the hook and its callbacks. */
  class GoalsHook {
    var goals: seq<Goal>

    /** `useState<Goal[]>([])`. */
    constructor ()
      ensures goals == []
    {
      goals := [];
    }

    /** `addGoal`: on OK, append the goal the server returned. */
    method AddGoal(reply: UseTasks.Response<Goal>)
      modifies this
      ensures goals == if reply.Ok? then old(goals) + [reply.body] else old(goals)
    {
      if reply.Ok? {
        goals := goals + [reply.body];
      }
    }

    /** `updateGoal`: on OK, merge the local `updates` into the matching goals. */
    method UpdateGoal(id: string, updates: GoalPatch, reply: UseTasks.Response<Goal>)
      modifies this
      ensures goals == if reply.Ok? then MergeById(old(goals), id, updates) else old(goals)
    {
      if reply.Ok? {
        goals := MergeById(goals, id, updates);
      }
    }

    /** `deleteGoal`: on OK, drop the goals with that id. */
    method DeleteGoal(id: string, reply: UseTasks.Response<()>)
      modifies this
      ensures goals == if reply.Ok? then RemoveById(old(goals), id) else old(goals)
    {
      if reply.Ok? {
        goals := RemoveById(goals, id);
      }
    }

    /** `updateGoalProgress`: on OK, show `Math.min(value, targetValue)` on the matching goals. */
    method UpdateGoalProgress(id: string, value: real, reply: UseTasks.Response<Goal>)
      modifies this
      ensures goals == if reply.Ok? then ProgressById(old(goals), id, value) else old(goals)
    {
      if reply.Ok? {
        goals := ProgressById(goals, id, value);
      }
    }

    /** `fetchGoals`: on OK, the fetched list replaces the whole list. */
    method FetchGoals(reply: UseTasks.Response<seq<Goal>>)
      modifies this
      ensures goals == if reply.Ok? then reply.body else old(goals)
    {
      if reply.Ok? {
        goals := reply.body;
      }
    }
  }
}
