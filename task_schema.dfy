/**
 * The Mongoose schema of a Task document: its paths, which are required, the two enum
 * domains and the defaults. Creating a document from a request body applies the defaults and
 * then runs the validators; a body that fails them is not stored.
 */
module TaskSchema {
  import opened Wrappers
  import opened MongoTypes

  /** The enum of the `category` path. */
  const Categories: seq<string> := ["work", "personal", "health", "learning"]

  /** The enum of the `priority` path. */
  const Priorities: seq<string> := ["low", "medium", "high"]

  /**
   * The paths of a request body the schema declares; in strict mode any other key is dropped.
   * `id` is the body's `_id`, which Mongoose uses instead of generating one.
   */
  datatype TaskBody = TaskBody(
    id: Option<ObjectId>,
    userId: Option<ObjectId>,
    title: Option<string>,
    description: Option<string>,
    category: Option<string>,
    priority: Option<string>,
    date: Option<Instant>,
    completed: Option<bool>)

  /** A stored Task document. */
  datatype Task = Task(
    id: ObjectId,
    userId: ObjectId,
    title: string,
    description: string,
    category: string,
    priority: string,
    date: Instant,
    completed: bool)

  /** A document every validator of the schema accepts. */
  predicate ValidTask(t: Task) {
    t.title != "" && t.description != ""
    && t.category in Categories && t.priority in Priorities
  }

  /**
   * The paths whose validator rejects the body, in schema order. `date` and `completed` never
   * fail: each has a default, and a default is applied before validation.
   */
  function FailingPaths(b: TaskBody): (paths: seq<string>)
    ensures paths == [] <==> (b.userId.Some? && RequiredString(b.title) && RequiredString(b.description)
                              && InEnum(b.category, Categories) && InEnum(b.priority, Priorities))
    ensures forall i :: 0 <= i < |paths| ==> paths[i] in ["userId", "title", "description", "category", "priority"]
  {
    (if b.userId.None? then ["userId"] else [])
    + (if !RequiredString(b.title) then ["title"] else [])
    + (if !RequiredString(b.description) then ["description"] else [])
    + (if !InEnum(b.category, Categories) then ["category"] else [])
    + (if !InEnum(b.priority, Priorities) then ["priority"] else [])
  }

  /**
   * `new Task(body)` followed by validation: the document with `_id` from the body or `newId`,
   * `date` defaulting to the clock reading `now` and `completed` to false; or the failing paths.
   */
  function NewTask(b: TaskBody, newId: ObjectId, now: Instant): (r: Result<Task, seq<string>>)
    ensures r.Success? <==> FailingPaths(b) == []
    ensures r.Success? ==> ValidTask(r.value)
    ensures r.Success? ==> r.value.id == b.id.GetOr(newId)
    ensures r.Success? ==> r.value.completed == b.completed.GetOr(false)
    ensures r.Success? ==> r.value.date == b.date.GetOr(now)
    ensures r.Success? ==> Some(r.value.userId) == b.userId && Some(r.value.title) == b.title
                           && Some(r.value.description) == b.description
                           && Some(r.value.category) == b.category && Some(r.value.priority) == b.priority
    ensures r.Failure? ==> r.error != []
  {
    var paths := FailingPaths(b);
    if paths != [] then Failure(paths)
    else Success(Task(b.id.GetOr(newId), b.userId.value, b.title.value, b.description.value,
                      b.category.value, b.priority.value, b.date.GetOr(now), b.completed.GetOr(false)))
  }

  /** A body without a user id is always rejected, whatever else it holds. */
  lemma OwnerRequired(b: TaskBody, newId: ObjectId, now: Instant)
    requires b.userId.None?
    ensures NewTask(b, newId, now).Failure?
    ensures "userId" in NewTask(b, newId, now).error
  {
  }

  /** A category outside the enum is rejected even when every other path is acceptable. */
  lemma CategoryOutsideEnumRejected(b: TaskBody, newId: ObjectId, now: Instant)
    requires b.category.Some? && b.category.value !in Categories
    ensures NewTask(b, newId, now).Failure?
    ensures "category" in NewTask(b, newId, now).error
  {
  }
}
