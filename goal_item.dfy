/**
 * One goal card: its progress percentage, the "Completed" badge, the days left until the deadline,
 * the category label, and the small editor that sends a new progress value. Instants are integer
 * milliseconds; the clock reading is a parameter.
 */
module GoalItem {
  import opened Wrappers
  import opened JsText
  import opened Types
  import GoalSchema

  /** `(currentValue / targetValue) * 100`; `None` where JavaScript would give an infinity or NaN. */
  function Progress(g: Goal): (p: Option<real>)
    ensures p.None? <==> g.targetValue == 0.0
    ensures p.Some? ==> p.value * g.targetValue == g.currentValue * 100.0
  {
    if g.targetValue == 0.0 then None else Some((g.currentValue / g.targetValue) * 100.0)
  }

  /** `currentValue >= targetValue`: the goal shows the "Completed" badge and the green ring. */
  predicate IsCompleted(g: Goal) {
    g.currentValue >= g.targetValue
  }

  /** For a positive target the badge and a full progress bar go together. */
  lemma CompletedIffFull(g: Goal)
    requires g.targetValue > 0.0
    ensures IsCompleted(g) <==> Progress(g).value >= 100.0
  {
    var p := Progress(g).value;
    assert p * g.targetValue == g.currentValue * 100.0;
    if IsCompleted(g) {
      assert p * g.targetValue >= 100.0 * g.targetValue;
    } else {
      assert p * g.targetValue < 100.0 * g.targetValue;
    }
  }

  /** `1000 * 60 * 60 * 24`. */
  const MsPerDay := 86400000

  /**
   * `Math.max(0, Math.ceil((deadline - now) / MsPerDay))`: whole days until the deadline,
   * rounded up, and 0 once the deadline has passed.
   */
  function DaysLeft(deadline: int, now: int): (n: nat)
    ensures n == 0 <==> deadline <= now
    ensures deadline > now ==> (n - 1) * MsPerDay < deadline - now <= n * MsPerDay
  {
    var q := (now - deadline) / MsPerDay;
    assert q * MsPerDay <= now - deadline < q * MsPerDay + MsPerDay;
    if -q < 0 then 0 else -q
  }

  /** The deadline line of the card. */
  function DueLabel(daysLeft: nat): (shown: string)
    ensures shown == "Due today" <==> daysLeft == 0
    ensures daysLeft > 0 ==> shown == NatToDecimal(daysLeft) + " days left"
  {
    if daysLeft == 0 then "Due today"
    else
      var digits := NatToDecimal(daysLeft);
      assert IsDigit((digits + " days left")[0]);
      digits + " days left"
  }

  /** The part of `s` before its first `x`: the first piece `s.split(x)` would give. */
  function UpTo(s: string, x: char): (r: string)
    ensures |r| <= |s| && r == s[..|r|]
    ensures x !in r
    ensures |r| < |s| ==> s[|r|] == x
  {
    if s == [] || s[0] == x then [] else [s[0]] + UpTo(s[1..], x)
  }

  /**
   * `c.charAt(0).toLocaleUpperCase() + c.split(c.charAt(0))[1].toLocaleLowerCase()`: the second
   * piece of the split is the text between the first character and its next occurrence. An empty
   * category has no second piece and the expression throws (`None`).
   */
  function CategoryLabel(c: string): (shown: Option<string>)
    ensures shown.None? <==> c == []
    ensures shown.Some? ==> |shown.value| >= 1 && shown.value[0] == ToUpperAscii(c[0])
    ensures shown.Some? ==> shown.value[1..] == LowerAscii(UpTo(c[1..], c[0]))
  {
    if c == [] then None else Some([ToUpperAscii(c[0])] + LowerAscii(UpTo(c[1..], c[0])))
  }

  /** A lower-case word whose first letter does not come back is shown capitalised, in full. */
  lemma LabelCapitalises(c: string)
    requires c != [] && c[0] !in c[1..]
    requires forall i :: 0 <= i < |c| ==> 'a' <= c[i] <= 'z'
    ensures CategoryLabel(c) == Some([(c[0] as int - 32) as char] + c[1..])
  {
    assert UpTo(c[1..], c[0]) == c[1..];
    assert LowerAscii(c[1..]) == c[1..];
  }

  /** The five categories of the goal schema get their capitalised names. */
  lemma CategoryLabels()
    ensures forall i :: 0 <= i < |GoalSchema.Categories| ==>
      var c := GoalSchema.Categories[i];
      CategoryLabel(c) == Some([(c[0] as int - 32) as char] + c[1..])
  {
    forall i | 0 <= i < |GoalSchema.Categories|
      ensures var c := GoalSchema.Categories[i]; CategoryLabel(c) == Some([(c[0] as int - 32) as char] + c[1..])
    {
      LabelCapitalises(GoalSchema.Categories[i]);
    }
  }

  /** A repeated first letter cuts the label short at its second occurrence. */
  lemma RepeatedInitialTruncates()
    ensures CategoryLabel("success") == Some("Succe")
  {
    var rest := "success"[1..];
    assert rest == "uccess";
    var piece := UpTo(rest, 's');
    assert rest[4] == 's' && 's' !in rest[..4];
    assert |piece| == 4;
    assert piece == "ucce";
    assert LowerAscii(piece) == "ucce";
    assert ToUpperAscii("success"[0]) == 'S';
    assert ['S'] + "ucce" == "Succe";
  }

  /** The card's state for one goal; `goal` is the prop the card was created with. */
  class GoalItemState {
    const goal: Goal
    var isEditing: bool
    var progressValue: real

    /** The `useState` initial values: editor closed, the input holding the current value. */
    constructor (goal: Goal)
      ensures this.goal == goal && !isEditing && progressValue == goal.currentValue
    {
      this.goal := goal;
      isEditing := false;
      progressValue := goal.currentValue;
    }

    /** The edit button: open or close the progress editor. */
    method ToggleEditing()
      modifies this
      ensures isEditing == !old(isEditing)
      ensures unchanged(this`progressValue)
    {
      isEditing := !isEditing;
    }

    /** The number input's `onChange`: its `min` and `max` attributes are not enforced here. */
    method SetProgressValue(value: real)
      modifies this
      ensures progressValue == value
      ensures unchanged(this`isEditing)
    {
      progressValue := value;
    }

    /** `handleProgressUpdate`: `onUpdateProgress(goal._id, progressValue)`, the value as typed. */
    method HandleProgressUpdate() returns (id: string, value: real)
      ensures id == goal.id && value == progressValue
    {
      id, value := goal.id, progressValue;
    }

    /** The delete button: `onDelete(goal._id)`. */
    method Delete() returns (id: string)
      ensures id == goal.id
    {
      id := goal.id;
    }
  }
}
