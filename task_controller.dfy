/**
 * The Express handlers of the `/tasks` routes over the Task collection, which is modelled as a
 * map from ObjectId to document. Each handler answers with a status and a body; a driver
 * error (`dbFails`) is caught and answered with 500 before anything is written. The handlers
 * apply no owner filter: every request sees and may change every document.
 */
module TaskController {
  import opened Wrappers
  import opened MongoTypes
  import opened TaskSchema

  /** The reply of a handler: the status code and the JSON body it sends. */
  datatype Reply =
    | Listed(tasks: seq<Task>)
    | Created(task: Task)
    | Updated(task: Task)
    | Deleted
    | NotFound
    | ServerError(message: string)
  {
    function Status(): int {
      match this
      case Listed(_) => 200
      case Created(_) => 201
      case Updated(_) => 200
      case Deleted => 200
      case NotFound => 404
      case ServerError(_) => 500
    }
  }

  /** The body of `PUT /tasks/:taskid`: the paths it overwrites (validators do not run on updates). */
  datatype TaskPatch = TaskPatch(
    userId: Option<ObjectId>,
    title: Option<string>,
    description: Option<string>,
    category: Option<string>,
    priority: Option<string>,
    date: Option<Instant>,
    completed: Option<bool>)

  /** The document after `findByIdAndUpdate(id, patch)`: each path the patch names takes its value. */
  function ApplyPatch(t: Task, u: TaskPatch): (r: Task)
    ensures r.id == t.id
    ensures Overrides(u.userId, t.userId, r.userId) && Overrides(u.title, t.title, r.title)
    ensures Overrides(u.description, t.description, r.description)
    ensures Overrides(u.category, t.category, r.category) && Overrides(u.priority, t.priority, r.priority)
    ensures Overrides(u.date, t.date, r.date) && Overrides(u.completed, t.completed, r.completed)
  {
    Task(t.id, u.userId.GetOr(t.userId), u.title.GetOr(t.title), u.description.GetOr(t.description),
         u.category.GetOr(t.category), u.priority.GetOr(t.priority), u.date.GetOr(t.date),
         u.completed.GetOr(t.completed))
  }

  type Store = map<ObjectId, Task>

  /** Every document is filed under its own `_id`. */
  predicate Keyed(s: Store) {
    forall id :: id in s ==> s[id].id == id
  }

  /** The store after `PUT /tasks/:taskid`. */
  function PatchStore(s: Store, id: ObjectId, u: TaskPatch): (r: Store)
    requires Keyed(s)
    ensures Keyed(r) && r.Keys == s.Keys
    ensures forall k :: k in s && k != id ==> r[k] == s[k]
    ensures id in s ==> r[id] == ApplyPatch(s[id], u)
  {
    if id in s then s[id := ApplyPatch(s[id], u)] else s
  }

  /** The store after `PUT /tasks/complete/:taskid`. */
  function ToggleStore(s: Store, id: ObjectId): (r: Store)
    requires Keyed(s)
    ensures Keyed(r) && r.Keys == s.Keys
    ensures forall k :: k in s && k != id ==> r[k] == s[k]
    ensures id in s ==> r[id] == s[id].(completed := !s[id].completed)
  {
    if id in s then s[id := s[id].(completed := !s[id].completed)] else s
  }

  /** Toggling completion twice gives back the store it started from. */
  lemma ToggleInvolution(s: Store, id: ObjectId)
    requires Keyed(s)
    ensures ToggleStore(ToggleStore(s, id), id) == s
  {
    var r := ToggleStore(ToggleStore(s, id), id);
    assert r.Keys == s.Keys;
    forall k | k in s ensures r[k] == s[k] {
    }
  }

  /** An update of an id the store does not hold changes nothing. */
  lemma PatchAbsentIsIdentity(s: Store, id: ObjectId, u: TaskPatch)
    requires Keyed(s) && id !in s
    ensures PatchStore(s, id, u) == s
  {
  }

  /**
   * Updates bypass the schema's validators: patching a valid document can store a category
   * outside the enum or an empty title.
   */
  lemma PatchCanBreakValidity(s: Store, id: ObjectId)
    requires Keyed(s) && id in s && ValidTask(s[id])
    ensures !ValidTask(PatchStore(s, id, TaskPatch(None, Some(""), None, Some("chores"), None, None, None))[id])
  {
  }

  /** Which documents a `find` returns. */
  datatype Query = All | OnDate(date: Instant)

  predicate Matches(q: Query, t: Task) {
    match q
    case All => true
    case OnDate(d) => t.date == d
  }

  /** `found` lists each stored document that matches `q` exactly once, and nothing else. */
  predicate ListsExactly(found: seq<Task>, s: Store, q: Query) {
    && (forall i :: 0 <= i < |found| ==> found[i].id in s && s[found[i].id] == found[i] && Matches(q, found[i]))
    && (forall id :: id in s && Matches(q, s[id]) ==> s[id] in found)
    && (forall i, j :: 0 <= i < j < |found| ==> found[i].id != found[j].id)
  }

  /** The Task collection and the handlers of taskController.js. */
  class TaskCollection {
    var docs: Store

    ghost predicate Valid()
      reads this
    {
      Keyed(docs)
    }

    constructor ()
      ensures Valid() && docs == map[]
    {
      docs := map[];
    }

    /** `Task.find(query)`: every matching document once, in no particular order. */
    method Find(q: Query) returns (found: seq<Task>)
      requires Valid()
      ensures ListsExactly(found, docs, q)
    {
      var rest := docs.Keys;
      found := [];
      while rest != {}
        invariant rest <= docs.Keys
        invariant forall i :: 0 <= i < |found| ==> found[i].id in docs && found[i].id !in rest
                                                    && docs[found[i].id] == found[i] && Matches(q, found[i])
        invariant forall id :: id in docs && id !in rest && Matches(q, docs[id]) ==> docs[id] in found
        invariant forall i, j :: 0 <= i < j < |found| ==> found[i].id != found[j].id
        decreases rest
      {
        var id :| id in rest;
        if Matches(q, docs[id]) {
          found := found + [docs[id]];
        }
        rest := rest - {id};
      }
    }

    /** `GET /tasks`: every stored task, whoever owns it. */
    method GetAllTask(dbFails: bool) returns (reply: Reply)
      requires Valid()
      ensures dbFails ==> reply == ServerError("Error fetching tasks")
      ensures !dbFails ==> reply.Listed? && ListsExactly(reply.tasks, docs, All)
    {
      if dbFails {
        return ServerError("Error fetching tasks");
      }
      var found := Find(All);
      reply := Listed(found);
    }

    /**
     * `POST /tasks/addtask`: build the document from the body with its defaults (`newId` is the
     * generated ObjectId, `now` the clock), validate it and insert it. A validation error, a
     * duplicate `_id` or a driver error answers 500 and stores nothing.
     */
    method AddTask(body: TaskBody, newId: ObjectId, now: Instant, dbFails: bool) returns (reply: Reply)
      requires Valid()
      modifies this
      ensures Valid()
      ensures match NewTask(body, newId, now)
        case Failure(_) => reply == ServerError("Error adding task") && docs == old(docs)
        case Success(t) =>
          if dbFails || t.id in old(docs) then reply == ServerError("Error adding task") && docs == old(docs)
          else reply == Created(t) && docs == old(docs)[t.id := t]
      ensures reply.Created? ==> ValidTask(reply.task) && reply.task.id !in old(docs) && |docs| == |old(docs)| + 1
    {
      var made := NewTask(body, newId, now);
      if made.Failure? || dbFails || made.value.id in docs {
        return ServerError("Error adding task");
      }
      docs := docs[made.value.id := made.value];
      reply := Created(made.value);
    }

    /** `PUT /tasks/:taskid`: overwrite the paths the body names; 404 when no such task. */
    method UpdateTask(id: ObjectId, patch: TaskPatch, dbFails: bool) returns (reply: Reply)
      requires Valid()
      modifies this
      ensures Valid()
      ensures dbFails ==> reply == ServerError("Error updating task") && docs == old(docs)
      ensures !dbFails && id !in old(docs) ==> reply == NotFound && docs == old(docs)
      ensures !dbFails && id in old(docs) ==>
        docs == PatchStore(old(docs), id, patch) && reply == Updated(ApplyPatch(old(docs)[id], patch))
    {
      if dbFails {
        return ServerError("Error updating task");
      }
      if id !in docs {
        return NotFound;
      }
      var updated := ApplyPatch(docs[id], patch);
      docs := docs[id := updated];
      reply := Updated(updated);
    }

    /** `DELETE /tasks/:taskid`: remove the task; 404 when no such task. */
    method DeleteTask(id: ObjectId, dbFails: bool) returns (reply: Reply)
      requires Valid()
      modifies this
      ensures Valid()
      ensures dbFails ==> reply == ServerError("Error deleting task") && docs == old(docs)
      ensures !dbFails && id !in old(docs) ==> reply == NotFound && docs == old(docs)
      ensures !dbFails && id in old(docs) ==> reply == Deleted && docs == old(docs) - {id}
                                              && |docs| == |old(docs)| - 1
    {
      if dbFails {
        return ServerError("Error deleting task");
      }
      if id !in docs {
        return NotFound;
      }
      docs := docs - {id};
      reply := Deleted;
    }

    /**
     * `GET /tasks/date/:date`: the tasks whose `date` is the instant the parameter denotes.
     * `date` is None when the parameter does not cast to a Date, which throws and answers 500.
     */
    method GetTaskByDate(date: Option<Instant>, dbFails: bool) returns (reply: Reply)
      requires Valid()
      ensures dbFails || date.None? ==> reply == ServerError("Error fetching tasks by date")
      ensures !dbFails && date.Some? ==> reply.Listed? && ListsExactly(reply.tasks, docs, OnDate(date.value))
    {
      if dbFails || date.None? {
        return ServerError("Error fetching tasks by date");
      }
      var found := Find(OnDate(date.value));
      reply := Listed(found);
    }

    /** `PUT /tasks/complete/:taskid`: read the task, then write the negation of `completed`. */
    method UpdateCompleteState(id: ObjectId, dbFails: bool) returns (reply: Reply)
      requires Valid()
      modifies this
      ensures Valid()
      ensures dbFails ==> reply == ServerError("Error updating task completion state") && docs == old(docs)
      ensures !dbFails && id !in old(docs) ==> reply == NotFound && docs == old(docs)
      ensures !dbFails && id in old(docs) ==>
        docs == ToggleStore(old(docs), id) && reply == Updated(docs[id])
    {
      if dbFails {
        return ServerError("Error updating task completion state");
      }
      if id !in docs {
        return NotFound;
      }
      var task := docs[id];
      docs := docs[id := task.(completed := !task.completed)];
      reply := Updated(docs[id]);
    }
  }
}
