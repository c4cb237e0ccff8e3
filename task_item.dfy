/**
 * One row of the task list: it shows a task and lets the user toggle, delete or edit it. Editing
 * works on two local buffers that start as the task's title and description; saving hands only
 * those two fields to `onEdit`, cancelling copies the task's values back. The callbacks are
 * returned to the caller instead of being called.
 */
module TaskItem {
  import opened Wrappers
  import opened Types
  import UseTasks

  /** The `Partial<Task>` that `handleSave` passes to `onEdit`: a title and a description, nothing else. */
  function EditPatch(title: string, description: string): (p: TaskPatch)
    ensures p.title == Some(title) && p.description == Some(description)
    ensures p.id.None? && p.completed.None? && p.category.None? && p.priority.None?
    ensures p.date.None? && p.createdAt.None?
  {
    TaskPatch(None, Some(title), Some(description), None, None, None, None, None)
  }

  /** Merging an edit changes a task's title and description and keeps every other field. */
  lemma EditKeepsOtherFields(t: Task, title: string, description: string)
    ensures var m := MergeTask(t, EditPatch(title, description));
      && m.title == title && m.description == description
      && m.id == t.id && m.completed == t.completed && m.category == t.category
      && m.priority == t.priority && m.date == t.date && m.createdAt == t.createdAt
  {
  }

  /** Saving the untouched buffers (or saving right after a cancel) leaves the task as it was. */
  lemma SaveUnchangedIsIdentity(tasks: seq<Task>, t: Task)
    ensures MergeTask(t, EditPatch(t.title, t.description)) == t
    ensures (forall i :: 0 <= i < |tasks| && tasks[i].id == t.id ==> tasks[i] == t) ==>
      UseTasks.MergeById(tasks, t.id, EditPatch(t.title, t.description)) == tasks
  {
  }

  /** The row's state for one task; `task` is the prop the row was created with. */
  class TaskItemState {
    const task: Task
    var isEditing: bool
    var editTitle: string
    var editDescription: string

    /** The edit and delete buttons are rendered only outside edit mode. */
    predicate ActionsShown()
      reads this
    {
      !isEditing
    }

    /** The `useState` initial values: not editing, buffers holding the task's text. */
    constructor (task: Task)
      ensures this.task == task && ActionsShown()
      ensures editTitle == task.title && editDescription == task.description
    {
      this.task := task;
      isEditing := false;
      editTitle := task.title;
      editDescription := task.description;
    }

    /** The edit button: enter edit mode, buffers as they are. */
    method StartEditing()
      modifies this
      ensures isEditing && !ActionsShown()
      ensures unchanged(this`editTitle, this`editDescription)
    {
      isEditing := true;
    }

    /** The two inputs' `onChange` handlers: each sets its own buffer only. */
    method EditBuffers(newTitle: Option<string>, newDescription: Option<string>)
      modifies this
      ensures editTitle == newTitle.GetOr(old(editTitle))
      ensures editDescription == newDescription.GetOr(old(editDescription))
      ensures unchanged(this`isEditing)
    {
      if newTitle.Some? { editTitle := newTitle.value; }
      if newDescription.Some? { editDescription := newDescription.value; }
    }

    /** `handleSave`: `onEdit(task._id, { title, description })` from the buffers, then leave edit mode. */
    method HandleSave() returns (id: string, updates: TaskPatch)
      modifies this
      ensures id == task.id && updates == EditPatch(old(editTitle), old(editDescription))
      ensures ActionsShown()
      ensures unchanged(this`editTitle, this`editDescription)
    {
      id, updates := task.id, EditPatch(editTitle, editDescription);
      isEditing := false;
    }

    /** `handleCancel`: drop the buffered edits and leave edit mode. */
    method HandleCancel()
      modifies this
      ensures editTitle == task.title && editDescription == task.description
      ensures ActionsShown()
    {
      editTitle := task.title;
      editDescription := task.description;
      isEditing := false;
    }

    /** The toggle button: `onToggle(task._id)`, no local state changes. */
    method Toggle() returns (id: string)
      ensures id == task.id
    {
      id := task.id;
    }

    /** The delete button: `onDelete(task._id)`, no local state changes. */
    method Delete() returns (id: string)
      ensures id == task.id
    {
      id := task.id;
    }
  }
}
