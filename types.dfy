/**
 * The client-side record shapes: Task and Goal as the browser receives them, the `Partial<…>`
 * patches merged into them with object spread, and the `Omit<…, '_id' | 'createdAt'>` payloads
 * the forms hand to the hooks. `category` and `priority` are typed as string unions; at run time
 * they hold whatever the server sent, so they are strings here.
 */
module Types {
  import opened Wrappers

  datatype Task = Task(
    id: string,
    title: string,
    description: string,
    completed: bool,
    category: string,
    priority: string,
    date: string,
    createdAt: string)

  datatype Goal = Goal(
    id: string,
    title: string,
    description: string,
    targetValue: real,
    currentValue: real,
    unit: string,
    deadline: string,
    category: string,
    createdAt: string)

  /** `Partial<Task>`: any field, including `_id`, may be present. */
  datatype TaskPatch = TaskPatch(
    id: Option<string>,
    title: Option<string>,
    description: Option<string>,
    completed: Option<bool>,
    category: Option<string>,
    priority: Option<string>,
    date: Option<string>,
    createdAt: Option<string>)

  /** `Partial<Goal>`. */
  datatype GoalPatch = GoalPatch(
    id: Option<string>,
    title: Option<string>,
    description: Option<string>,
    targetValue: Option<real>,
    currentValue: Option<real>,
    unit: Option<string>,
    deadline: Option<string>,
    category: Option<string>,
    createdAt: Option<string>)

  /** `{ ...t, ...u }`: the fields present in `u` override those of `t`. */
  function MergeTask(t: Task, u: TaskPatch): (m: Task)
    ensures Overrides(u.id, t.id, m.id) && Overrides(u.title, t.title, m.title)
    ensures Overrides(u.description, t.description, m.description)
    ensures Overrides(u.completed, t.completed, m.completed) && Overrides(u.category, t.category, m.category)
    ensures Overrides(u.priority, t.priority, m.priority) && Overrides(u.date, t.date, m.date)
    ensures Overrides(u.createdAt, t.createdAt, m.createdAt)
  {
    Task(u.id.GetOr(t.id), u.title.GetOr(t.title), u.description.GetOr(t.description),
         u.completed.GetOr(t.completed), u.category.GetOr(t.category), u.priority.GetOr(t.priority),
         u.date.GetOr(t.date), u.createdAt.GetOr(t.createdAt))
  }

  /** `{ ...g, ...u }`. */
  function MergeGoal(g: Goal, u: GoalPatch): (m: Goal)
    ensures Overrides(u.id, g.id, m.id) && Overrides(u.title, g.title, m.title)
    ensures Overrides(u.description, g.description, m.description)
    ensures Overrides(u.targetValue, g.targetValue, m.targetValue)
    ensures Overrides(u.currentValue, g.currentValue, m.currentValue) && Overrides(u.unit, g.unit, m.unit)
    ensures Overrides(u.deadline, g.deadline, m.deadline) && Overrides(u.category, g.category, m.category)
    ensures Overrides(u.createdAt, g.createdAt, m.createdAt)
  {
    Goal(u.id.GetOr(g.id), u.title.GetOr(g.title), u.description.GetOr(g.description),
         u.targetValue.GetOr(g.targetValue), u.currentValue.GetOr(g.currentValue), u.unit.GetOr(g.unit),
         u.deadline.GetOr(g.deadline), u.category.GetOr(g.category), u.createdAt.GetOr(g.createdAt))
  }

  /** Spreading the same patch twice is spreading it once. */
  lemma MergeTaskIdempotent(t: Task, u: TaskPatch)
    ensures MergeTask(MergeTask(t, u), u) == MergeTask(t, u)
  {
  }

  /** Spreading the same patch twice is spreading it once. */
  lemma MergeGoalIdempotent(g: Goal, u: GoalPatch)
    ensures MergeGoal(MergeGoal(g, u), u) == MergeGoal(g, u)
  {
  }

  /** The payload of a new task: `Omit<Task, '_id' | 'createdAt'>`. */
  datatype NewTask = NewTask(
    title: string,
    description: string,
    completed: bool,
    category: string,
    priority: string,
    date: string)

  /** The payload of a new goal: `Omit<Goal, '_id' | 'createdAt'>`. */
  datatype NewGoal = NewGoal(
    title: string,
    description: string,
    targetValue: real,
    currentValue: real,
    unit: string,
    deadline: string,
    category: string)
}
