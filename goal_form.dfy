/**
 * The "add goal" form: title, description, target value, unit, deadline and category. Submitting
 * hands a payload to `onAdd` (returned here) and resets the form. The target value is whatever
 * number the input holds: its `min="1"` attribute is a browser hint that `handleSubmit` does not
 * enforce.
 */
module GoalForm {
  import opened Wrappers
  import opened JsText
  import opened Types

  const DefaultTarget: real := 1.0
  const DefaultCategory := "personal"

  /**
   * What `handleSubmit` passes to `onAdd`, or `None` when the trimmed title or the trimmed unit
   * is empty or no deadline is chosen.
   */
  function SubmitPayload(title: string, description: string, targetValue: real, unit: string,
                         deadline: string, category: string): (p: Option<NewGoal>)
    ensures p.None? <==> IsBlank(title) || IsBlank(unit) || deadline == ""
    ensures p.Some? ==> p.value == NewGoal(Trim(title), Trim(description), targetValue, 0.0, Trim(unit), deadline, category)
    ensures p.Some? ==> && p.value.title != [] && !IsWhitespace(p.value.title[0])
                        && !IsWhitespace(p.value.title[|p.value.title| - 1])
                        && p.value.unit != [] && !IsWhitespace(p.value.unit[0])
                        && !IsWhitespace(p.value.unit[|p.value.unit| - 1])
                        && p.value.currentValue == 0.0 && p.value.targetValue == targetValue
                        && p.value.deadline == deadline && p.value.category == category
  {
    TrimEmptyIffBlank(title);
    TrimEmptyIffBlank(unit);
    TrimEnds(title);
    TrimEnds(unit);
    if Trim(title) == [] || Trim(unit) == [] || deadline == "" then None
    else Some(NewGoal(Trim(title), Trim(description), targetValue, 0.0, Trim(unit), deadline, category))
  }

  /**
   * No target value is refused: a zero or negative target passes the guard and is sent as
   * entered, and the new goal then starts at or above its own target.
   */
  lemma TargetNotChecked(title: string, description: string, targetValue: real, unit: string,
                         deadline: string, category: string)
    requires !IsBlank(title) && !IsBlank(unit) && deadline != ""
    ensures var p := SubmitPayload(title, description, targetValue, unit, deadline, category);
      p.Some? && p.value.targetValue == targetValue
      && (targetValue <= 0.0 ==> p.value.currentValue >= p.value.targetValue)
  {
  }

  /** Submitting a payload's own fields again produces the same payload. */
  lemma ResubmitIsStable(title: string, description: string, targetValue: real, unit: string,
                         deadline: string, category: string)
    ensures var p := SubmitPayload(title, description, targetValue, unit, deadline, category);
      p.Some? ==> SubmitPayload(p.value.title, p.value.description, p.value.targetValue, p.value.unit,
                                p.value.deadline, p.value.category) == p
  {
    TrimEmptyIffBlank(title);
    TrimEmptyIffBlank(unit);
    if !IsBlank(title) && !IsBlank(unit) && deadline != "" {
      var t, d, u := Trim(title), Trim(description), Trim(unit);
      TrimIdempotent(title);
      TrimIdempotent(description);
      TrimIdempotent(unit);
      TrimEmptyIffBlank(t);
      TrimEmptyIffBlank(u);
      assert SubmitPayload(t, d, targetValue, u, deadline, category)
          == Some(NewGoal(Trim(t), Trim(d), targetValue, 0.0, Trim(u), deadline, category));
    }
  }

  /** The form's state. */
  class GoalFormState {
    var isOpen: bool
    var title: string
    var description: string
    var targetValue: real
    var unit: string
    var deadline: string
    var category: string

    /** The state the form starts in and returns to after a submit. */
    predicate Pristine()
      reads this
    {
      && !isOpen && title == "" && description == "" && targetValue == DefaultTarget
      && unit == "" && deadline == "" && category == DefaultCategory
    }

    /** The `useState` initial values. */
    constructor ()
      ensures Pristine()
    {
      isOpen := false;
      title := "";
      description := "";
      targetValue := DefaultTarget;
      unit := "";
      deadline := "";
      category := DefaultCategory;
    }

    /** The "Add New Goal" button and the close buttons: only `isOpen` changes. */
    method SetOpen(open: bool)
      modifies this
      ensures isOpen == open
      ensures unchanged(this`title, this`description, this`targetValue, this`unit, this`deadline, this`category)
    {
      isOpen := open;
    }

    /** The target input's `onChange`: `Number(e.target.value)`, with no bound applied. */
    method SetTargetValue(value: real)
      modifies this
      ensures targetValue == value
      ensures unchanged(this`isOpen, this`title, this`description, this`unit, this`deadline, this`category)
    {
      targetValue := value;
    }

    /** The text inputs' and the select's `onChange` handlers: each sets its own field only. */
    method EditFields(newTitle: Option<string>, newDescription: Option<string>, newUnit: Option<string>,
                      newDeadline: Option<string>, newCategory: Option<string>)
      modifies this
      ensures title == newTitle.GetOr(old(title)) && description == newDescription.GetOr(old(description))
      ensures unit == newUnit.GetOr(old(unit)) && deadline == newDeadline.GetOr(old(deadline))
      ensures category == newCategory.GetOr(old(category))
      ensures unchanged(this`isOpen, this`targetValue)
    {
      if newTitle.Some? { title := newTitle.value; }
      if newDescription.Some? { description := newDescription.value; }
      if newUnit.Some? { unit := newUnit.value; }
      if newDeadline.Some? { deadline := newDeadline.value; }
      if newCategory.Some? { category := newCategory.value; }
    }

    /** The six setters `handleSubmit` runs after `onAdd`: back to the initial state. */
    method Reset()
      modifies this
      ensures Pristine()
    {
      title := "";
      description := "";
      targetValue := DefaultTarget;
      unit := "";
      deadline := "";
      category := DefaultCategory;
      isOpen := false;
    }

    /**
     * `handleSubmit`: when the guard fails nothing is sent and nothing changes; otherwise the
     * payload is sent and the form is back in its initial state.
     */
    method HandleSubmit() returns (sent: Option<NewGoal>)
      modifies this
      ensures sent == SubmitPayload(old(title), old(description), old(targetValue), old(unit),
                                    old(deadline), old(category))
      ensures sent.None? ==> unchanged(this)
      ensures sent.Some? ==> Pristine()
    {
      sent := SubmitPayload(title, description, targetValue, unit, deadline, category);
      if sent.Some? {
        Reset();
      }
    }
  }
}
