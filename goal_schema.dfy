/**
 * The Mongoose schema of a Goal document: required paths, the category enum and the defaults
 * (`currentValue` 1, `createdAt` the creation instant); `progress` is optional with no default.
 */
module GoalSchema {
  import opened Wrappers
  import opened MongoTypes

  /** The enum of the `category` path. */
  const Categories: seq<string> := ["fitness", "career", "personal", "learning", "financial"]

  /** The paths of a request body the schema declares (`id` is the body's `_id`). */
  datatype GoalBody = GoalBody(
    id: Option<ObjectId>,
    userID: Option<ObjectId>,
    title: Option<string>,
    description: Option<string>,
    currentValue: Option<real>,
    targetValue: Option<real>,
    unit: Option<string>,
    category: Option<string>,
    deadline: Option<Instant>,
    createdAt: Option<Instant>,
    progress: Option<real>)

  /** A stored Goal document. */
  datatype Goal = Goal(
    id: ObjectId,
    userID: ObjectId,
    title: string,
    description: string,
    currentValue: real,
    targetValue: real,
    unit: string,
    category: string,
    deadline: Instant,
    createdAt: Instant,
    progress: Option<real>)

  /** A document every validator of the schema accepts; nothing relates `currentValue` to `targetValue`. */
  predicate ValidGoal(g: Goal) {
    g.title != "" && g.description != "" && g.unit != "" && g.category in Categories
  }

  /** The paths whose validator rejects the body, in schema order (`currentValue` has a default). */
  function FailingPaths(b: GoalBody): (paths: seq<string>)
    ensures paths == [] <==> (b.userID.Some? && RequiredString(b.title) && RequiredString(b.description)
                              && b.targetValue.Some? && RequiredString(b.unit)
                              && InEnum(b.category, Categories) && b.deadline.Some?)
    ensures forall i :: 0 <= i < |paths| ==> paths[i] in ["userID", "title", "description", "targetValue", "unit", "category", "deadline"]
  {
    (if b.userID.None? then ["userID"] else [])
    + (if !RequiredString(b.title) then ["title"] else [])
    + (if !RequiredString(b.description) then ["description"] else [])
    + (if b.targetValue.None? then ["targetValue"] else [])
    + (if !RequiredString(b.unit) then ["unit"] else [])
    + (if !InEnum(b.category, Categories) then ["category"] else [])
    + (if b.deadline.None? then ["deadline"] else [])
  }

  /** `new Goals(body)` followed by validation: the document with its defaults, or the failing paths. */
  function NewGoal(b: GoalBody, newId: ObjectId, now: Instant): (r: Result<Goal, seq<string>>)
    ensures r.Success? <==> FailingPaths(b) == []
    ensures r.Success? ==> ValidGoal(r.value)
    ensures r.Success? ==> r.value.id == b.id.GetOr(newId)
    ensures r.Success? ==> r.value.currentValue == b.currentValue.GetOr(1.0)
    ensures r.Success? ==> r.value.createdAt == b.createdAt.GetOr(now)
    ensures r.Success? ==> r.value.progress == b.progress
    ensures r.Success? ==> Some(r.value.userID) == b.userID && Some(r.value.targetValue) == b.targetValue
                           && Some(r.value.title) == b.title && Some(r.value.description) == b.description
                           && Some(r.value.unit) == b.unit && Some(r.value.category) == b.category
                           && Some(r.value.deadline) == b.deadline
    ensures r.Failure? ==> r.error != []
  {
    var paths := FailingPaths(b);
    if paths != [] then Failure(paths)
    else Success(Goal(b.id.GetOr(newId), b.userID.value, b.title.value, b.description.value,
                      b.currentValue.GetOr(1.0), b.targetValue.value, b.unit.value, b.category.value,
                      b.deadline.value, b.createdAt.GetOr(now), b.progress))
  }

  /**
   * The schema accepts a goal already past its target (current 12, target 10) and one below
   * zero: no validator relates the two values.
   */
  lemma NoBoundBetweenCurrentAndTarget(b: GoalBody, newId: ObjectId, now: Instant)
    requires FailingPaths(b) == []
    ensures NewGoal(b.(currentValue := Some(12.0), targetValue := Some(10.0)), newId, now).Success?
    ensures NewGoal(b.(currentValue := Some(-5.0)), newId, now).Success?
  {
  }
}
