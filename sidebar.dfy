/**
 * The navigation sidebar: the menu of the four views with the current one highlighted, the
 * per-category task counts and the number of completed goals. The same menu and category
 * expressions appear in both versions of the sidebar.
 */
module Sidebar {
  import opened Types
  import JsArray
  import TaskSchema
  import Dashboard

  datatype MenuItem = MenuItem(id: string, caption: string)

  /** `menuItems`, in display order. */
  const MenuItems: seq<MenuItem> := [
    MenuItem("dashboard", "Dashboard"),
    MenuItem("tasks", "Tasks"),
    MenuItem("goals", "Goals"),
    MenuItem("calendar", "Calendar")
  ]

  /** Which menu buttons get the active style: `currentView === item.id`, item by item. */
  function Highlights(currentView: string): (active: seq<bool>)
    ensures |active| == |MenuItems|
    ensures forall i :: 0 <= i < |MenuItems| ==> (active[i] <==> MenuItems[i].id == currentView)
  {
    seq(|MenuItems|, i requires 0 <= i < |MenuItems| => MenuItems[i].id == currentView)
  }

  /** The menu ids are distinct, so a view that is one of them highlights exactly that one button. */
  lemma ExactlyOneHighlighted(currentView: string, k: nat)
    requires k < |MenuItems| && MenuItems[k].id == currentView
    ensures Highlights(currentView)[k]
    ensures forall i :: 0 <= i < |MenuItems| && i != k ==> !Highlights(currentView)[i]
  {
    assert MenuItems[0].id[0] == 'd' && MenuItems[1].id[0] == 't';
    assert MenuItems[2].id[0] == 'g' && MenuItems[3].id[0] == 'c';
  }

  /** `tasks.filter(t => t.category === key).length`. */
  function CategoryCount(tasks: seq<Task>, key: string): (n: nat)
    ensures n <= |tasks|
    ensures n == 0 <==> forall i :: 0 <= i < |tasks| ==> tasks[i].category != key
  {
    var hasKey := (t: Task) => t.category == key;
    JsArray.FilterEmpty(tasks, hasKey);
    |JsArray.Filter(tasks, hasKey)|
  }

  datatype CategoryRow = CategoryRow(name: string, count: nat)

  /** `categories`: the four rows, in display order, each with its task count. */
  function Categories(tasks: seq<Task>): (rows: seq<CategoryRow>)
    ensures |rows| == 4
    ensures rows[0] == CategoryRow("Personal", CategoryCount(tasks, "personal"))
    ensures rows[1] == CategoryRow("Work", CategoryCount(tasks, "work"))
    ensures rows[2] == CategoryRow("Health", CategoryCount(tasks, "health"))
    ensures rows[3] == CategoryRow("Learning", CategoryCount(tasks, "learning"))
  {
    [CategoryRow("Personal", CategoryCount(tasks, "personal")),
     CategoryRow("Work", CategoryCount(tasks, "work")),
     CategoryRow("Health", CategoryCount(tasks, "health")),
     CategoryRow("Learning", CategoryCount(tasks, "learning"))]
  }

  /** Counting one category: the first task, then the rest. */
  lemma CountStep(tasks: seq<Task>, key: string)
    requires tasks != []
    ensures CategoryCount(tasks, key) == (if tasks[0].category == key then 1 else 0) + CategoryCount(tasks[1..], key)
  {
  }

  /** The four counts summed. */
  function CountTotal(tasks: seq<Task>): nat {
    CategoryCount(tasks, "personal") + CategoryCount(tasks, "work")
    + CategoryCount(tasks, "health") + CategoryCount(tasks, "learning")
  }

  /** A schema category matches exactly one of the four keys. */
  lemma OneKey(c: string)
    requires c in TaskSchema.Categories
    ensures (if c == "personal" then 1 else 0) + (if c == "work" then 1 else 0)
          + (if c == "health" then 1 else 0) + (if c == "learning" then 1 else 0) == 1
  {
    if c == "personal" {
      assert c[0] == 'p';
    } else if c == "health" {
      assert c[0] == 'h';
    }
  }

  /** The first task adds one to exactly one of the four counts. */
  lemma TotalStep(tasks: seq<Task>)
    requires tasks != [] && tasks[0].category in TaskSchema.Categories
    ensures CountTotal(tasks) == 1 + CountTotal(tasks[1..])
  {
    CountStep(tasks, "personal");
    CountStep(tasks, "work");
    CountStep(tasks, "health");
    CountStep(tasks, "learning");
    OneKey(tasks[0].category);
  }

  /** When every task has one of the schema's four categories, the four rows account for every task. */
  lemma {:induction false} CountsCoverTasks(tasks: seq<Task>)
    requires forall i :: 0 <= i < |tasks| ==> tasks[i].category in TaskSchema.Categories
    ensures var rows := Categories(tasks);
      rows[0].count + rows[1].count + rows[2].count + rows[3].count == |tasks|
  {
    if tasks != [] {
      var rest := tasks[1..];
      assert forall i :: 0 <= i < |rest| ==> rest[i] == tasks[i + 1];
      CountsCoverTasks(rest);
      TotalStep(tasks);
    }
  }

  /** `goals.filter(goal => goal.currentValue >= goal.targetValue).length`. */
  function CompletedGoalCount(goals: seq<Goal>): (n: nat)
    ensures n <= |goals|
    ensures n == |Dashboard.CompletedGoals(goals)|
  {
    JsArray.Count(goals, (g: Goal) => g.currentValue >= g.targetValue)
  }

  /** The sidebar's count and the dashboard's active goals together make up all the goals. */
  lemma CompletedAndActive(goals: seq<Goal>)
    ensures CompletedGoalCount(goals) + |Dashboard.ActiveGoals(goals)| == |goals|
  {
    Dashboard.GoalsPartition(goals);
  }
}
