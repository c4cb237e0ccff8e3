/**
 * The "add task" form of the task list: a closed button that opens into a form with a title,
 * a description, a category and a priority. Submitting hands a payload to `onAdd` (returned here)
 * and resets the form; the day the task is for is the `selectedDate` prop.
 */
module TaskForm {
  import opened Wrappers
  import opened JsText
  import opened Types

  const DefaultCategory := "personal"
  const DefaultPriority := "medium"

  /**
   * What `handleSubmit` passes to `onAdd` for the given field values, or `None` when the
   * trimmed title is empty and nothing is sent.
   */
  function SubmitPayload(title: string, description: string, category: string, priority: string,
                         selectedDate: string): (p: Option<NewTask>)
    ensures p.None? <==> IsBlank(title)
    ensures p.Some? ==> p.value == NewTask(Trim(title), Trim(description), false, category, priority, selectedDate)
    ensures p.Some? ==> && p.value.title != [] && !IsWhitespace(p.value.title[0])
                        && !IsWhitespace(p.value.title[|p.value.title| - 1])
                        && (p.value.description == [] || !IsWhitespace(p.value.description[0]))
                        && !p.value.completed && p.value.category == category
                        && p.value.priority == priority && p.value.date == selectedDate
  {
    TrimEmptyIffBlank(title);
    TrimEnds(title);
    TrimEnds(description);
    if Trim(title) == [] then None
    else Some(NewTask(Trim(title), Trim(description), false, category, priority, selectedDate))
  }

  /**
   * Submitting a payload's own fields again produces the same payload: trimming has already
   * been done, so the form never sends text it would trim further.
   */
  lemma ResubmitIsStable(title: string, description: string, category: string, priority: string,
                         selectedDate: string)
    ensures var p := SubmitPayload(title, description, category, priority, selectedDate);
      p.Some? ==> SubmitPayload(p.value.title, p.value.description, p.value.category,
                                p.value.priority, p.value.date) == p
  {
    TrimEmptyIffBlank(title);
    if !IsBlank(title) {
      var t, d := Trim(title), Trim(description);
      TrimIdempotent(title);
      TrimIdempotent(description);
      TrimEmptyIffBlank(t);
      assert SubmitPayload(t, d, category, priority, selectedDate)
          == Some(NewTask(Trim(t), Trim(d), false, category, priority, selectedDate));
    }
  }

  /** The form's state. */
  class TaskFormState {
    var isOpen: bool
    var title: string
    var description: string
    var category: string
    var priority: string

    /** The state the form starts in and returns to after a submit. */
    predicate Pristine()
      reads this
    {
      !isOpen && title == "" && description == "" && category == DefaultCategory && priority == DefaultPriority
    }

    /** The `useState` initial values. */
    constructor ()
      ensures Pristine()
    {
      isOpen := false;
      title := "";
      description := "";
      category := DefaultCategory;
      priority := DefaultPriority;
    }

    /** The "Add New Task" button and the close buttons: only `isOpen` changes. */
    method SetOpen(open: bool)
      modifies this
      ensures isOpen == open
      ensures unchanged(this`title, this`description, this`category, this`priority)
    {
      isOpen := open;
    }

    /** The inputs' `onChange` handlers: each sets its own field only. */
    method EditFields(newTitle: Option<string>, newDescription: Option<string>,
                      newCategory: Option<string>, newPriority: Option<string>)
      modifies this
      ensures title == newTitle.GetOr(old(title)) && description == newDescription.GetOr(old(description))
      ensures category == newCategory.GetOr(old(category)) && priority == newPriority.GetOr(old(priority))
      ensures unchanged(this`isOpen)
    {
      if newTitle.Some? { title := newTitle.value; }
      if newDescription.Some? { description := newDescription.value; }
      if newCategory.Some? { category := newCategory.value; }
      if newPriority.Some? { priority := newPriority.value; }
    }

    /**
     * `handleSubmit`: with a blank title nothing is sent and nothing changes; otherwise the
     * trimmed payload is sent and the form is back in its initial state.
     */
    method HandleSubmit(selectedDate: string) returns (sent: Option<NewTask>)
      modifies this
      ensures sent == SubmitPayload(old(title), old(description), old(category), old(priority), selectedDate)
      ensures sent.None? ==> unchanged(this)
      ensures sent.Some? ==> Pristine()
    {
      if Trim(title) == [] {
        return None;
      }
      sent := Some(NewTask(Trim(title), Trim(description), false, category, priority, selectedDate));
      title := "";
      description := "";
      category := DefaultCategory;
      priority := DefaultPriority;
      isOpen := false;
    }
  }
}
