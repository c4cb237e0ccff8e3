/**
 * The Express handlers of the `/goals` routes over the Goal collection, modelled as a map from
 * ObjectId to document. As in the task controller, a driver error (`dbFails`) answers 500 with
 * nothing written, and no handler filters by owner. `updateProgress` stores the value it is sent
 * as it is: the server clamps it neither to `targetValue` nor to zero.
 */
module GoalsController {
  import opened Wrappers
  import opened MongoTypes
  import opened GoalSchema

  /** The reply of a handler: the status code and the JSON body it sends. */
  datatype Reply =
    | Listed(goals: seq<Goal>)
    | Created(goal: Goal)
    | Updated(goal: Goal)
    | Deleted
    | NotFound
    | ServerError(message: string)
  {
    function Status(): int {
      match this
      case Listed(_) => 200
      case Created(_) => 201
      case Updated(_) => 200
      case Deleted => 200
      case NotFound => 404
      case ServerError(_) => 500
    }
  }

  /** The body of `PUT /goals/:goalId`: the paths it overwrites (validators do not run on updates). */
  datatype GoalPatch = GoalPatch(
    userID: Option<ObjectId>,
    title: Option<string>,
    description: Option<string>,
    currentValue: Option<real>,
    targetValue: Option<real>,
    unit: Option<string>,
    category: Option<string>,
    deadline: Option<Instant>,
    createdAt: Option<Instant>,
    progress: Option<real>)

  /** The document after `findByIdAndUpdate(id, patch)`. */
  function ApplyPatch(g: Goal, u: GoalPatch): (r: Goal)
    ensures r.id == g.id
    ensures Overrides(u.userID, g.userID, r.userID) && Overrides(u.title, g.title, r.title)
    ensures Overrides(u.description, g.description, r.description)
    ensures Overrides(u.currentValue, g.currentValue, r.currentValue)
    ensures Overrides(u.targetValue, g.targetValue, r.targetValue) && Overrides(u.unit, g.unit, r.unit)
    ensures Overrides(u.category, g.category, r.category) && Overrides(u.deadline, g.deadline, r.deadline)
    ensures Overrides(u.createdAt, g.createdAt, r.createdAt)
    ensures u.progress.Some? ==> r.progress == u.progress
    ensures u.progress.None? ==> r.progress == g.progress
  {
    Goal(g.id, u.userID.GetOr(g.userID), u.title.GetOr(g.title), u.description.GetOr(g.description),
         u.currentValue.GetOr(g.currentValue), u.targetValue.GetOr(g.targetValue), u.unit.GetOr(g.unit),
         u.category.GetOr(g.category), u.deadline.GetOr(g.deadline), u.createdAt.GetOr(g.createdAt),
         if u.progress.Some? then u.progress else g.progress)
  }

  type Store = map<ObjectId, Goal>

  /** Every document is filed under its own `_id`. */
  predicate Keyed(s: Store) {
    forall id :: id in s ==> s[id].id == id
  }

  /** The store after `PUT /goals/:goalId`. */
  function PatchStore(s: Store, id: ObjectId, u: GoalPatch): (r: Store)
    requires Keyed(s)
    ensures Keyed(r) && r.Keys == s.Keys
    ensures forall k :: k in s && k != id ==> r[k] == s[k]
    ensures id in s ==> r[id] == ApplyPatch(s[id], u)
  {
    if id in s then s[id := ApplyPatch(s[id], u)] else s
  }

  /** The store after `PUT /goals/progress/:goalId` with `currentValue: v`. */
  function ProgressStore(s: Store, id: ObjectId, v: real): (r: Store)
    requires Keyed(s)
    ensures Keyed(r) && r.Keys == s.Keys
    ensures forall k :: k in s && k != id ==> r[k] == s[k]
    ensures id in s ==> r[id] == s[id].(currentValue := v)
  {
    if id in s then s[id := s[id].(currentValue := v)] else s
  }

  /**
   * Reading a goal back after a progress update gives exactly the value sent, even above the
   * target or below zero; every other path of the goal is as it was.
   */
  lemma ProgressStoredUnclamped(s: Store, id: ObjectId, v: real)
    requires Keyed(s) && id in s
    ensures ProgressStore(s, id, v)[id].currentValue == v
    ensures v > s[id].targetValue ==> ProgressStore(s, id, v)[id].currentValue > ProgressStore(s, id, v)[id].targetValue
    ensures ProgressStore(s, id, v)[id].(currentValue := s[id].currentValue) == s[id]
  {
  }

  /** Two progress updates in a row: the second value is the one stored. */
  lemma ProgressLastWriteWins(s: Store, id: ObjectId, v: real, w: real)
    requires Keyed(s)
    ensures ProgressStore(ProgressStore(s, id, v), id, w) == ProgressStore(s, id, w)
  {
    var a := ProgressStore(ProgressStore(s, id, v), id, w);
    var b := ProgressStore(s, id, w);
    assert a.Keys == b.Keys;
    forall k | k in a ensures a[k] == b[k] {
    }
  }

  /** Which documents a `find` returns. */
  predicate ListsExactly(found: seq<Goal>, s: Store) {
    && (forall i :: 0 <= i < |found| ==> found[i].id in s && s[found[i].id] == found[i])
    && (forall id :: id in s ==> s[id] in found)
    && (forall i, j :: 0 <= i < j < |found| ==> found[i].id != found[j].id)
  }

  /** The Goal collection and the handlers of goalsController.js. */
  class GoalCollection {
    var docs: Store

    ghost predicate Valid()
      reads this
    {
      Keyed(docs)
    }

    constructor ()
      ensures Valid() && docs == map[]
    {
      docs := map[];
    }

    /** `GET /goals`: every stored goal once, whoever owns it. */
    method GetAllGoals(dbFails: bool) returns (reply: Reply)
      requires Valid()
      ensures dbFails ==> reply == ServerError("Error fetching goals")
      ensures !dbFails ==> reply.Listed? && ListsExactly(reply.goals, docs)
    {
      if dbFails {
        return ServerError("Error fetching goals");
      }
      var rest := docs.Keys;
      var found: seq<Goal> := [];
      while rest != {}
        invariant rest <= docs.Keys
        invariant forall i :: 0 <= i < |found| ==> found[i].id in docs && found[i].id !in rest
                                                    && docs[found[i].id] == found[i]
        invariant forall id :: id in docs && id !in rest ==> docs[id] in found
        invariant forall i, j :: 0 <= i < j < |found| ==> found[i].id != found[j].id
        decreases rest
      {
        var id :| id in rest;
        found := found + [docs[id]];
        rest := rest - {id};
      }
      reply := Listed(found);
    }

    /** `POST /goals/addgoal`: validate and insert; any failure answers 500 and stores nothing. */
    method AddGoals(body: GoalBody, newId: ObjectId, now: Instant, dbFails: bool) returns (reply: Reply)
      requires Valid()
      modifies this
      ensures Valid()
      ensures match NewGoal(body, newId, now)
        case Failure(_) => reply == ServerError("Error adding goal") && docs == old(docs)
        case Success(g) =>
          if dbFails || g.id in old(docs) then reply == ServerError("Error adding goal") && docs == old(docs)
          else reply == Created(g) && docs == old(docs)[g.id := g]
      ensures reply.Created? ==> ValidGoal(reply.goal) && reply.goal.id !in old(docs) && |docs| == |old(docs)| + 1
    {
      var made := NewGoal(body, newId, now);
      if made.Failure? || dbFails || made.value.id in docs {
        return ServerError("Error adding goal");
      }
      docs := docs[made.value.id := made.value];
      reply := Created(made.value);
    }

    /** `PUT /goals/:goalId`: overwrite the paths the body names; 404 when no such goal. */
    method UpdateGoals(id: ObjectId, patch: GoalPatch, dbFails: bool) returns (reply: Reply)
      requires Valid()
      modifies this
      ensures Valid()
      ensures dbFails ==> reply == ServerError("Error updating goal") && docs == old(docs)
      ensures !dbFails && id !in old(docs) ==> reply == NotFound && docs == old(docs)
      ensures !dbFails && id in old(docs) ==>
        docs == PatchStore(old(docs), id, patch) && reply == Updated(ApplyPatch(old(docs)[id], patch))
    {
      if dbFails {
        return ServerError("Error updating goal");
      }
      if id !in docs {
        return NotFound;
      }
      var updated := ApplyPatch(docs[id], patch);
      docs := docs[id := updated];
      reply := Updated(updated);
    }

    /** `DELETE /goals/:goalId`: remove the goal; 404 when no such goal. */
    method DeleteGoals(id: ObjectId, dbFails: bool) returns (reply: Reply)
      requires Valid()
      modifies this
      ensures Valid()
      ensures dbFails ==> reply == ServerError("Error deleting goal") && docs == old(docs)
      ensures !dbFails && id !in old(docs) ==> reply == NotFound && docs == old(docs)
      ensures !dbFails && id in old(docs) ==> reply == Deleted && docs == old(docs) - {id}
                                              && |docs| == |old(docs)| - 1
    {
      if dbFails {
        return ServerError("Error deleting goal");
      }
      if id !in docs {
        return NotFound;
      }
      docs := docs - {id};
      reply := Deleted;
    }

    /** `PUT /goals/progress/:goalId`: look the goal up (404 before any write), then store `currentValue`. */
    method UpdateProgress(id: ObjectId, currentValue: real, dbFails: bool) returns (reply: Reply)
      requires Valid()
      modifies this
      ensures Valid()
      ensures dbFails ==> reply == ServerError("Error updating goal completion state") && docs == old(docs)
      ensures !dbFails && id !in old(docs) ==> reply == NotFound && docs == old(docs)
      ensures !dbFails && id in old(docs) ==>
        docs == ProgressStore(old(docs), id, currentValue) && reply == Updated(docs[id])
    {
      if dbFails {
        return ServerError("Error updating goal completion state");
      }
      if id !in docs {
        return NotFound;
      }
      var goal := docs[id];
      docs := docs[id := goal.(currentValue := currentValue)];
      reply := Updated(docs[id]);
    }
  }
}
