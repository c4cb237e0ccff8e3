/**
 * The `useTasks` hook: the browser's copy of the task list. Each mutation sends its request and,
 * only when the response is OK, replaces `tasks` by a transform of the previous list; a non-OK
 * response throws before `setTasks` runs, so the list is left as it was.
 */
module UseTasks {
  import opened Wrappers
  import opened Types
  import JsArray
  import MongoTypes
  import TaskSchema

  /** How a `fetch` ended: OK with its parsed JSON body, or not OK (a thrown network error acts the same). */
  datatype Response<T> = Ok(body: T) | NotOk(status: int)

  /** `prev.map(task => task._id === id ? { ...task, ...updates } : task)`. */
  function MergeById(tasks: seq<Task>, id: string, updates: TaskPatch): (r: seq<Task>)
    ensures |r| == |tasks|
    ensures forall i :: 0 <= i < |tasks| && tasks[i].id != id ==> r[i] == tasks[i]
    ensures forall i :: 0 <= i < |tasks| && tasks[i].id == id ==> r[i] == MergeTask(tasks[i], updates)
  {
    seq(|tasks|, i requires 0 <= i < |tasks| => if tasks[i].id == id then MergeTask(tasks[i], updates) else tasks[i])
  }

  /** `prev.filter(task => task._id !== id)`. */
  function RemoveById(tasks: seq<Task>, id: string): (r: seq<Task>)
    ensures forall i :: 0 <= i < |r| ==> r[i].id != id && r[i] in tasks
    ensures forall i :: 0 <= i < |tasks| && tasks[i].id != id ==> tasks[i] in r
  {
    JsArray.Filter(tasks, (t: Task) => t.id != id)
  }

  /** `prev.map(task => task._id === id ? { ...task, completed: !task.completed } : task)`. */
  function ToggleById(tasks: seq<Task>, id: string): (r: seq<Task>)
    ensures |r| == |tasks|
    ensures forall i :: 0 <= i < |tasks| && tasks[i].id != id ==> r[i] == tasks[i]
    ensures forall i :: 0 <= i < |tasks| && tasks[i].id == id ==> r[i] == tasks[i].(completed := !tasks[i].completed)
  {
    seq(|tasks|, i requires 0 <= i < |tasks| => if tasks[i].id == id then tasks[i].(completed := !tasks[i].completed) else tasks[i])
  }

  /** `tasks.filter(task => task.date === date)`. */
  function OnDate(tasks: seq<Task>, date: string): (r: seq<Task>)
    ensures forall i :: 0 <= i < |r| ==> r[i].date == date && r[i] in tasks
    ensures forall i :: 0 <= i < |tasks| && tasks[i].date == date ==> tasks[i] in r
  {
    JsArray.Filter(tasks, (t: Task) => t.date == date)
  }

  /**
   * The tasks of a date keep their list order: those of a concatenation are those of each
   * part, in turn, and a single task is kept exactly when its date string is the one asked for.
   */
  lemma {:induction false} OnDateKeepsOrder(a: seq<Task>, b: seq<Task>, t: Task, date: string)
    ensures OnDate(a + b, date) == OnDate(a, date) + OnDate(b, date)
    ensures OnDate([t], date) == if t.date == date then [t] else []
  {
    JsArray.FilterAppend(a, b, (t: Task) => t.date == date);
  }

  /** Toggling the same id twice restores the list. */
  lemma ToggleInvolution(tasks: seq<Task>, id: string)
    ensures ToggleById(ToggleById(tasks, id), id) == tasks
  {
  }

  /** Merging the same updates twice is merging them once, even when they change `_id`. */
  lemma MergeIdempotent(tasks: seq<Task>, id: string, updates: TaskPatch)
    ensures MergeById(MergeById(tasks, id, updates), id, updates) == MergeById(tasks, id, updates)
  {
    var once := MergeById(tasks, id, updates);
    forall i | 0 <= i < |tasks|
      ensures MergeById(once, id, updates)[i] == once[i]
    {
      if tasks[i].id == id {
        MergeTaskIdempotent(tasks[i], updates);
      }
    }
  }

  /**
   * Deletion keeps the order of what remains: deleting from a concatenation is deleting from
   * each part; deleting an id the list does not hold leaves it unchanged; the removed and kept
   * tasks together are the list.
   */
  lemma {:induction false} RemoveKeepsOrder(a: seq<Task>, b: seq<Task>, id: string)
    ensures RemoveById(a + b, id) == RemoveById(a, id) + RemoveById(b, id)
    ensures (forall i :: 0 <= i < |a| ==> a[i].id != id) ==> RemoveById(a, id) == a
    ensures |RemoveById(a, id)| + |JsArray.Filter(a, (t: Task) => t.id == id)| == |a|
  {
    JsArray.FilterAppend(a, b, (t: Task) => t.id != id);
    JsArray.FilterAll(a, (t: Task) => t.id != id);
    JsArray.FilterSplit(a, (t: Task) => t.id != id, (t: Task) => t.id == id);
  }

  /**
   * The body `addTask` posts is the form's payload, which carries no `userId`; the task schema
   * rejects every such body (`date` is the instant the posted date string casts to).
   */
  lemma PostedBodyLacksOwner(p: NewTask, date: MongoTypes.Instant, newId: MongoTypes.ObjectId, now: MongoTypes.Instant)
    ensures TaskSchema.NewTask(TaskSchema.TaskBody(None, None, Some(p.title), Some(p.description), Some(p.category),
                                                   Some(p.priority), Some(date), Some(p.completed)), newId, now).Failure?
  {
  }

  /** The `tasks` state of the hook and its callbacks. */
  class TasksHook {
    var tasks: seq<Task>

    /** `useState<Task[]>([])`. */
    constructor ()
      ensures tasks == []
    {
      tasks := [];
    }

    /** `addTask`: on OK, append the task the server returned and return it. */
    method AddTask(reply: Response<Task>) returns (added: Option<Task>)
      modifies this
      ensures tasks == if reply.Ok? then old(tasks) + [reply.body] else old(tasks)
      ensures added == if reply.Ok? then Some(reply.body) else None
    {
      if reply.NotOk? {
        return None;
      }
      tasks := tasks + [reply.body];
      added := Some(reply.body);
    }

    /** `updateTask`: on OK, merge the local `updates` (not the server's reply) into the matching tasks. */
    method UpdateTask(id: string, updates: TaskPatch, reply: Response<Task>)
      modifies this
      ensures tasks == if reply.Ok? then MergeById(old(tasks), id, updates) else old(tasks)
    {
      if reply.Ok? {
        tasks := MergeById(tasks, id, updates);
      }
    }

    /** `deleteTask`: on OK, drop the tasks with that id. */
    method DeleteTask(id: string, reply: Response<()>)
      modifies this
      ensures tasks == if reply.Ok? then RemoveById(old(tasks), id) else old(tasks)
    {
      if reply.Ok? {
        tasks := RemoveById(tasks, id);
      }
    }

    /** `toggleTask`: on OK, flip `completed` on the tasks with that id. */
    method ToggleTask(id: string, reply: Response<Task>)
      modifies this
      ensures tasks == if reply.Ok? then ToggleById(old(tasks), id) else old(tasks)
    {
      if reply.Ok? {
        tasks := ToggleById(tasks, id);
      }
    }

    /** `getTasksForDate`: the tasks whose date string is `date`, in list order. */
    method GetTasksForDate(date: string) returns (found: seq<Task>)
      ensures found == OnDate(tasks, date)
    {
      found := OnDate(tasks, date);
    }

    /** `fetchTasks`: on OK, the fetched list replaces the whole list. */
    method FetchTasks(reply: Response<seq<Task>>)
      modifies this
      ensures tasks == if reply.Ok? then reply.body else old(tasks)
    {
      if reply.Ok? {
        tasks := reply.body;
      }
    }
  }
}
